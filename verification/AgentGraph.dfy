/** The state graph of an analysis: routing, parallel subagents, the synthesize/verify loop, and what
    the executor persists at the end. */
module AgentGraph {
  import opened Wrappers

  datatype Route = Data | Knowledge | Hybrid | Unsupported

  /** The names a route can select: `data_analysis` and `knowledge_research`. */
  datatype Agent = DataAnalysis | KnowledgeResearch

  datatype Node = LoadContext | Router | Subagents(running: seq<Agent>) | Synthesize | Verify
                | ApprovalGate | Complete | End

  /** What a subagent returns, and the entry the graph adds for it. */
  datatype Findings = Findings(rows: seq<string>, citations: seq<string>, insight: string)
  datatype Entry = Entry(agent: Agent, findings: Findings)

  datatype Answer = Answer(direct: string, rows: seq<string>, citations: seq<string>, requiresApproval: bool)

  /** One line of the trace; every execution of a node leaves one. */
  datatype Trace = AtContext | AtRouter(route: Route) | AtSubagent(agent: Agent) | AtSynthesis
                 | AtVerifier(verified: bool) | AtGate(approved: bool) | AtComplete

  datatype State = State(route: Option<Route>, selected: seq<Agent>, results: seq<Entry>, citations: seq<string>,
                         trace: seq<Trace>, attempts: map<string, nat>, answer: Option<Answer>, verified: bool,
                         error: Option<string>, retryTarget: Option<Node>, requiresApproval: bool, completed: bool)

  const VERIFICATION := "verification"

  // ---------------------------------------------------------------------------------------------
  // Updates and their reducers
  // ---------------------------------------------------------------------------------------------

  /** The dictionary a node returns: keys that it leaves out are `None`, or empty where the reducer
      adds. */
  datatype Update = Update(route: Option<Route>, selected: Option<seq<Agent>>, results: seq<Entry>,
                           citations: seq<string>, trace: seq<Trace>, attempts: map<string, nat>,
                           answer: Option<Answer>, verdict: Option<Verdict>, requiresApproval: Option<bool>,
                           completed: Option<bool>)

  datatype Verdict = Verdict(verified: bool, error: Option<string>, retryTarget: Option<Node>)

  const NOTHING := Update(None, None, [], [], [], map[], None, None, None, None)

  function Overwrite<T>(was: T, now: Option<T>): T { if now.Some? then now.value else was }

  /** `{**left, **right}`. */
  function MergeMaps(left: map<string, nat>, right: map<string, nat>): (r: map<string, nat>)
    ensures forall k :: k in r <==> k in left || k in right
    ensures forall k | k in r :: r[k] == if k in right then right[k] else left[k]
  {
    left + right
  }

  /** Lists are appended, the maps are merged, and every other key is overwritten. */
  function Reduce(s: State, u: Update): State {
    State(if u.route.Some? then u.route else s.route, Overwrite(s.selected, u.selected), s.results + u.results,
          s.citations + u.citations, s.trace + u.trace, MergeMaps(s.attempts, u.attempts),
          if u.answer.Some? then u.answer else s.answer,
          if u.verdict.Some? then u.verdict.value.verified else s.verified,
          if u.verdict.Some? then u.verdict.value.error else s.error,
          if u.verdict.Some? then u.verdict.value.retryTarget else s.retryTarget,
          Overwrite(s.requiresApproval, u.requiresApproval), Overwrite(s.completed, u.completed))
  }

  // ---------------------------------------------------------------------------------------------
  // Nodes and edges
  // ---------------------------------------------------------------------------------------------

  function SelectedFor(route: Route): seq<Agent> {
    match route
    case Data => [DataAnalysis]
    case Knowledge => [KnowledgeResearch]
    case Hybrid => [DataAnalysis, KnowledgeResearch]
    case Unsupported => []
  }

  function LoadContextNode(s: State): Update {
    NOTHING.(trace := [AtContext], attempts := map[VERIFICATION := 0])
  }

  function RouterNode(s: State, route: Route): Update {
    NOTHING.(route := Some(route), selected := Some(SelectedFor(route)), trace := [AtRouter(route)])
  }

  function Dispatch(s: State): Node {
    if s.route == Some(Unsupported) then Synthesize else Subagents(s.selected)
  }

  function SubagentNode(agent: Agent, findings: Findings): Update {
    NOTHING.(results := [Entry(agent, findings)], citations := findings.citations, trace := [AtSubagent(agent)])
  }

  function SynthesizeNode(s: State, answer: Answer): Update {
    NOTHING.(answer := Some(answer), requiresApproval := Some(answer.requiresApproval), trace := [AtSynthesis])
  }

  function VerifyNode(s: State, v: Verdict): Update {
    var before := if VERIFICATION in s.attempts then s.attempts[VERIFICATION] else 0;
    NOTHING.(verdict := Some(v), trace := [AtVerifier(v.verified)],
             attempts := s.attempts[VERIFICATION := before + if v.verified then 0 else 1])
  }

  function AfterVerify(s: State): Node {
    if !s.verified && (if VERIFICATION in s.attempts then s.attempts[VERIFICATION] else 0) < 2 then
      if s.retryTarget.Some? then s.retryTarget.value else Synthesize
    else if s.requiresApproval then ApprovalGate
    else Complete
  }

  function ApprovalNode(s: State, approved: bool): Update {
    NOTHING.(completed := Some(approved), trace := [AtGate(approved)])
  }

  function CompleteNode(s: State): Update {
    NOTHING.(completed := Some(s.verified), trace := [AtComplete])
  }

  // ---------------------------------------------------------------------------------------------
  // Runs
  // ---------------------------------------------------------------------------------------------

  datatype Config = Config(at: Node, s: State)

  /** What the services answer at a step. */
  datatype Input = Go | Routed(route: Route) | Done(agent: Agent, findings: Findings)
                 | Answered(answer: Answer) | Judged(verdict: Verdict) | Decided(approved: bool)

  /** The targets the graph declares an edge for. */
  predicate Declared(v: Verdict) {
    v.retryTarget in {None, Some(Synthesize), Some(ApprovalGate), Some(Complete)}
  }

  function Without(s: seq<Agent>, x: Agent): (r: seq<Agent>)
    ensures x in s ==> multiset(r) == multiset(s) - multiset{x} && |r| == |s| - 1
  {
    if s == [] then []
    else
      assert s == [s[0]] + s[1..];
      if s[0] == x then s[1..] else [s[0]] + Without(s[1..], x)
  }

  /** One node runs and its update is reduced into the state; the subagents of a route finish in any
      order, and the edge out of them is taken when the last one has. */
  function Step(c: Config, i: Input): Option<Config> {
    match (c.at, i)
    case (LoadContext, Go) => Some(Config(Router, Reduce(c.s, LoadContextNode(c.s))))
    case (Router, Routed(route)) =>
      var s := Reduce(c.s, RouterNode(c.s, route));
      Some(Config(Dispatch(s), s))
    case (Subagents(running), Done(agent, findings)) =>
      if agent !in running then None
      else
        var rest := Without(running, agent);
        Some(Config(if rest == [] then Synthesize else Subagents(rest), Reduce(c.s, SubagentNode(agent, findings))))
    case (Synthesize, Answered(answer)) => Some(Config(Verify, Reduce(c.s, SynthesizeNode(c.s, answer))))
    case (Verify, Judged(v)) =>
      if !Declared(v) then None
      else
        var s := Reduce(c.s, VerifyNode(c.s, v));
        Some(Config(AfterVerify(s), s))
    case (ApprovalGate, Decided(approved)) => Some(Config(Complete, Reduce(c.s, ApprovalNode(c.s, approved))))
    case (Complete, Go) => Some(Config(End, Reduce(c.s, CompleteNode(c.s))))
    case _ => None
  }

  function Play(c: Config, run: seq<Input>): Option<Config>
    decreases |run|
  {
    if run == [] then Some(c)
    else
      var next := Step(c, run[0]);
      if next.None? then None else Play(next.value, run[1..])
  }

  /** A question starts on a thread whose checkpoint holds the state earlier questions left. */
  function Start(thread: State): Config { Config(LoadContext, thread) }

  function CountOf(trace: seq<Trace>, t: Trace): nat { multiset(trace)[t] }

  function Retries(s: State): nat { if VERIFICATION in s.attempts then s.attempts[VERIFICATION] else 0 }

  /** How many steps are left at most. */
  function StepsLeft(c: Config): nat {
    match c.at
    case LoadContext => 10
    case Router => 9
    case Subagents(running) => 6 + |running|
    case Synthesize => if Retries(c.s) == 0 then 6 else 4
    case Verify => if Retries(c.s) == 0 then 5 else 3
    case ApprovalGate => 2
    case Complete => 1
    case End => 0
  }

  /** The lines this question has added to the trace of its thread. */
  function Own(thread: State, s: State): seq<Trace> {
    if |thread.trace| <= |s.trace| then s.trace[|thread.trace|..] else []
  }

  /** Executions counted by the trace: how often the answer was written, rejected and accepted. */
  datatype Counts = Counts(written: nat, rejected: nat, accepted: nat)

  function CountsOf(own: seq<Trace>): Counts {
    Counts(CountOf(own, AtSynthesis), CountOf(own, AtVerifier(false)), CountOf(own, AtVerifier(true)))
  }

  predicate CountsFit(c: Config, n: Counts) {
    var retries := Retries(c.s);
    match c.at
    case LoadContext => n == Counts(0, 0, 0)
    case Router => n == Counts(0, 0, 0) && retries == 0
    case Subagents(running) => n == Counts(0, 0, 0) && retries == 0 && 0 < |running| <= 2
    case Synthesize => n == Counts(retries, retries, 0) && retries <= 1
    case Verify => n == Counts(retries + 1, retries, 0) && retries <= 1
    case _ => n.rejected == retries && n.written == n.rejected + n.accepted && 1 <= n.written <= 2
              && n.accepted == (if c.s.verified then 1 else 0) && (c.at == End ==> c.s.completed == c.s.verified)
  }

  /** What holds wherever a run stands. */
  ghost predicate Inv(thread: State, c: Config) {
    thread.trace <= c.s.trace && CountsFit(c, CountsOf(Own(thread, c.s)))
  }

  function Line(c: Config, i: Input): Trace {
    match i
    case Go => if c.at == LoadContext then AtContext else AtComplete
    case Routed(route) => AtRouter(route)
    case Done(agent, _) => AtSubagent(agent)
    case Answered(_) => AtSynthesis
    case Judged(v) => AtVerifier(v.verified)
    case Decided(approved) => AtGate(approved)
  }

  lemma StepAddsLine(c: Config, i: Input)
    requires Step(c, i).Some?
    ensures Step(c, i).value.s.trace == c.s.trace + [Line(c, i)]
  {
  }

  lemma CountLine(own: seq<Trace>, t: Trace)
    ensures CountsOf(own + [t]) == Counted(CountsOf(own), t)
  {
  }

  /** The counts after a line is added. */
  function Counted(n: Counts, line: Trace): Counts {
    Counts(n.written + if line == AtSynthesis then 1 else 0,
           n.rejected + if line == AtVerifier(false) then 1 else 0,
           n.accepted + if line == AtVerifier(true) then 1 else 0)
  }

  lemma VerifyCounts(c: Config, i: Input, n: Counts)
    requires c.at == Verify && CountsFit(c, n) && Step(c, i).Some?
    ensures CountsFit(Step(c, i).value, Counted(n, Line(c, i)))
  {
    hide SelectedFor, Without;
  }

  lemma EarlyCounts(c: Config, i: Input, n: Counts)
    requires c.at.LoadContext? || c.at.Router? || c.at.Subagents?
    requires CountsFit(c, n) && Step(c, i).Some?
    ensures CountsFit(Step(c, i).value, Counted(n, Line(c, i)))
  {
    hide VerifyNode, AfterVerify, SynthesizeNode, ApprovalNode, CompleteNode;
  }

  lemma LateCounts(c: Config, i: Input, n: Counts)
    requires c.at.Synthesize? || c.at.ApprovalGate? || c.at.Complete?
    requires CountsFit(c, n) && Step(c, i).Some?
    ensures CountsFit(Step(c, i).value, Counted(n, Line(c, i)))
  {
    hide VerifyNode, AfterVerify, LoadContextNode, RouterNode, SubagentNode, SelectedFor, Without, Dispatch;
  }

  lemma NothingAfterEnd(c: Config, i: Input)
    requires c.at.End?
    ensures Step(c, i).None?
  {
  }

  lemma StepTakesOne(c: Config, i: Input, n: Counts)
    requires CountsFit(c, n) && Step(c, i).Some?
    ensures StepsLeft(Step(c, i).value) < StepsLeft(c)
  {
  }

  lemma StepKeeps(thread: State, c: Config, i: Input)
    requires Inv(thread, c) && Step(c, i).Some?
    ensures Inv(thread, Step(c, i).value)
    ensures StepsLeft(Step(c, i).value) < StepsLeft(c)
  {
    hide Step, CountsFit, CountsOf, StepsLeft;
    StepAddsLine(c, i);
    var own := Own(thread, c.s);
    CountLine(own, Line(c, i));
    assert Own(thread, Step(c, i).value.s) == own + [Line(c, i)];
    match c.at {
      case Verify => VerifyCounts(c, i, CountsOf(own));
      case LoadContext => EarlyCounts(c, i, CountsOf(own));
      case Router => EarlyCounts(c, i, CountsOf(own));
      case Subagents(_) => EarlyCounts(c, i, CountsOf(own));
      case End => NothingAfterEnd(c, i);
      case _ => LateCounts(c, i, CountsOf(own));
    }
    StepTakesOne(c, i, CountsOf(own));
  }

  lemma {:induction false} PlayKeeps(thread: State, c: Config, run: seq<Input>)
    requires Inv(thread, c) && Play(c, run).Some?
    ensures Inv(thread, Play(c, run).value)
    ensures |run| <= StepsLeft(c)
    decreases |run|
  {
    hide Inv, Step, StepsLeft;
    if run != [] {
      StepKeeps(thread, c, run[0]);
      PlayKeeps(thread, Step(c, run[0]).value, run[1..]);
    }
  }

  lemma StartFits(thread: State)
    ensures Inv(thread, Start(thread))
  {
    assert Own(thread, thread) == [];
  }

  /** Every run ends: after at most ten steps none is left, and before its end a run can always go on. */
  lemma RunsEnd(thread: State, run: seq<Input>)
    requires Play(Start(thread), run).Some?
    ensures |run| <= 10
    ensures Play(Start(thread), run).value.at == End <==> forall i :: Step(Play(Start(thread), run).value, i).None?
  {
    hide Step, Play;
    StartFits(thread);
    PlayKeeps(thread, Start(thread), run);
    var c := Play(Start(thread), run).value;
    NotStuck(thread, c);
  }

  lemma NotStuck(thread: State, c: Config)
    requires Inv(thread, c)
    ensures c.at == End <==> forall i :: Step(c, i).None?
  {
    hide Reduce;
    if c.at.Subagents? {
      assert Step(c, Done(c.at.running[0], Findings([], [], ""))).Some?;
    }
    assert c.at in {LoadContext, Complete} ==> Step(c, Go).Some?;
    assert c.at == Router ==> Step(c, Routed(Data)).Some?;
    assert c.at == Synthesize ==> Step(c, Answered(Answer("", [], [], false))).Some?;
    assert c.at == Verify ==> Step(c, Judged(Verdict(true, None, None))).Some?;
    assert c.at == ApprovalGate ==> Step(c, Decided(true)).Some?;
  }

  /** At its end a question has been answered once, or twice when the first answer was rejected and
      sent back; the verifier has rejected as often as the counter says; and it is completed exactly
      when the last answer was accepted, whatever the approval gate decided. */
  lemma EndOfRun(thread: State, run: seq<Input>)
    requires Play(Start(thread), run).Some? && Play(Start(thread), run).value.at == End
    ensures var s := Play(Start(thread), run).value.s;
      var n := CountsOf(Own(thread, s));
      && 1 <= n.written <= 2 && n.written == n.rejected + n.accepted && n.rejected == Retries(s)
      && (s.verified <==> n.accepted == 1)
      && (s.completed <==> s.verified)
  {
    hide Play, Step, CountsOf;
    StartFits(thread);
    PlayKeeps(thread, Start(thread), run);
  }

  // ---------------------------------------------------------------------------------------------
  // Results of the subagents
  // ---------------------------------------------------------------------------------------------

  function Agents(entries: seq<Entry>): (r: seq<Agent>)
    ensures |r| == |entries| && forall i | 0 <= i < |r| :: r[i] == entries[i].agent
  {
    seq(|entries|, i requires 0 <= i < |entries| => entries[i].agent)
  }

  const NO_FINDINGS := Findings([], [], "")

  /** `next((item for item in results if item["agent"] == agent), {})`. */
  function First(results: seq<Entry>, agent: Agent): Findings {
    if results == [] then NO_FINDINGS
    else if results[0].agent == agent then results[0].findings
    else First(results[1..], agent)
  }

  /** The findings of this question: the entries it has added. */
  function OwnResults(thread: State, s: State): seq<Entry> {
    if |thread.results| <= |s.results| then s.results[|thread.results|..] else []
  }

  /** Each selected subagent has one entry, or is still running. */
  ghost predicate ResultsFit(c: Config, own: seq<Entry>) {
    match c.at
    case LoadContext => own == []
    case Router => own == []
    case Subagents(running) => c.s.route.Some?
      && multiset(Agents(own)) + multiset(running) == multiset(SelectedFor(c.s.route.value))
    case _ => c.s.route.Some? && multiset(Agents(own)) == multiset(SelectedFor(c.s.route.value))
  }

  function Added(c: Config, i: Input): seq<Entry> {
    match i
    case Done(agent, findings) => [Entry(agent, findings)]
    case _ => []
  }

  lemma StepAddsResults(c: Config, i: Input)
    requires Step(c, i).Some?
    ensures Step(c, i).value.s.results == c.s.results + Added(c, i)
  {
  }

  lemma DoneStep(c: Config, agent: Agent, findings: Findings)
    requires c.at.Subagents? && agent in c.at.running
    ensures var next := Step(c, Done(agent, findings));
      var rest := Without(c.at.running, agent);
      && next.Some? && next.value.at == (if rest == [] then Synthesize else Subagents(rest))
      && next.value.s.results == c.s.results + [Entry(agent, findings)]
      && next.value.s.citations == c.s.citations + findings.citations
      && next.value.s.route == c.s.route
  {
    hide MergeMaps, Without;
  }

  lemma RoutedStep(c: Config, route: Route)
    requires c.at == Router
    ensures var next := Step(c, Routed(route));
      && next.Some? && next.value.at == (if route == Unsupported then Synthesize else Subagents(SelectedFor(route)))
      && next.value.s.results == c.s.results && next.value.s.citations == c.s.citations
      && next.value.s.route == Some(route)
  {
    hide MergeMaps, SelectedFor;
  }

  predicate Later(n: Node) { !n.LoadContext? && !n.Router? && !n.Subagents? }

  lemma LaterStays(c: Config, i: Input)
    requires Later(c.at) && Step(c, i).Some?
    ensures Later(Step(c, i).value.at) && Step(c, i).value.s.route == c.s.route && Added(c, i) == []
  {
    hide MergeMaps;
  }

  lemma SubagentStep(c: Config, i: Input, own: seq<Entry>)
    requires c.at.Subagents? && ResultsFit(c, own) && Step(c, i).Some?
    ensures ResultsFit(Step(c, i).value, own + Added(c, i))
  {
    hide Step, Agents, SelectedFor, Without, Later;
    OnlyDone(c, i);
    DoneStep(c, i.agent, i.findings);
    AgentsAdd(own, Entry(i.agent, i.findings));
    RunningLess(c.at.running, i.agent);
  }

  lemma AgentsAdd(own: seq<Entry>, e: Entry)
    ensures multiset(Agents(own + [e])) == multiset(Agents(own)) + multiset{e.agent}
  {
    assert Agents(own + [e]) == Agents(own) + [e.agent];
  }

  lemma RunningLess(running: seq<Agent>, agent: Agent)
    requires agent in running
    ensures multiset{agent} + multiset(Without(running, agent)) == multiset(running)
    ensures Without(running, agent) == [] ==> multiset(running) == multiset{agent}
  {
    var rest := Without(running, agent);
    assert agent in multiset(running);
    assert rest == [] ==> multiset(rest) == multiset{};
  }

  lemma OnlyDone(c: Config, i: Input)
    requires c.at.Subagents? && Step(c, i).Some?
    ensures i.Done? && i.agent in c.at.running
  {
  }

  lemma RouterStep(c: Config, i: Input)
    requires c.at == Router && Step(c, i).Some?
    ensures ResultsFit(Step(c, i).value, []) && Added(c, i) == []
  {
    hide MergeMaps;
    assert Agents([]) == [];
    assert multiset(Agents([])) == multiset{};
  }

  lemma ResultsStep(c: Config, i: Input, own: seq<Entry>)
    requires ResultsFit(c, own) && Step(c, i).Some?
    ensures ResultsFit(Step(c, i).value, own + Added(c, i))
  {
    hide Agents, SelectedFor, MergeMaps, Reduce;
    if c.at.Subagents? {
      SubagentStep(c, i, own);
    } else if Later(c.at) {
      LaterStays(c, i);
      assert own + [] == own;
    } else if c.at == Router {
      RouterStep(c, i);
      assert own + [] == [];
    }
  }

  lemma {:induction false} PlayResults(thread: State, c: Config, run: seq<Input>)
    requires Play(c, run).Some? && thread.results <= c.s.results && ResultsFit(c, OwnResults(thread, c.s))
    ensures var d := Play(c, run).value;
      thread.results <= d.s.results && ResultsFit(d, OwnResults(thread, d.s))
    decreases |run|
  {
    hide ResultsFit, Step;
    if run != [] {
      var next := Step(c, run[0]).value;
      StepAddsResults(c, run[0]);
      ResultsStep(c, run[0], OwnResults(thread, c.s));
      assert OwnResults(thread, next.s) == OwnResults(thread, c.s) + Added(c, run[0]);
      PlayResults(thread, next, run[1..]);
    }
  }

  /** Reducing loses and repeats no findings: once the subagents are done, the question has added one
      entry for each selected subagent and no other. */
  lemma EverySubagentOnce(thread: State, run: seq<Input>)
    requires Play(Start(thread), run).Some?
    ensures var c := Play(Start(thread), run).value;
      Later(c.at) ==>
        c.s.route.Some? && thread.results <= c.s.results
        && multiset(Agents(OwnResults(thread, c.s))) == match c.s.route.value
                                                        case Data => multiset{DataAnalysis}
                                                        case Knowledge => multiset{KnowledgeResearch}
                                                        case Hybrid => multiset{DataAnalysis, KnowledgeResearch}
                                                        case Unsupported => multiset{}
  {
    hide Step, Play;
    assert OwnResults(thread, thread) == [];
    PlayResults(thread, Start(thread), run);
  }

  // ---------------------------------------------------------------------------------------------
  // What a run leaves in the state
  // ---------------------------------------------------------------------------------------------

  /** What the services have answered in a run: every finding, and the last route, answer and verdict. */
  function Found(run: seq<Input>): seq<Entry> {
    if run == [] then []
    else if run[0].Done? then [Entry(run[0].agent, run[0].findings)] + Found(run[1..])
    else Found(run[1..])
  }

  function Cited(run: seq<Input>): seq<string> {
    if run == [] then []
    else if run[0].Done? then run[0].findings.citations + Cited(run[1..])
    else Cited(run[1..])
  }

  function LastRoute(run: seq<Input>, before: Option<Route>): Option<Route> {
    if run == [] then before else LastRoute(run[1..], if run[0].Routed? then Some(run[0].route) else before)
  }

  function LastAnswer(run: seq<Input>, before: Option<Answer>): Option<Answer> {
    if run == [] then before else LastAnswer(run[1..], if run[0].Answered? then Some(run[0].answer) else before)
  }

  function LastVerdict(run: seq<Input>, before: bool): bool {
    if run == [] then before
    else LastVerdict(run[1..], if run[0].Judged? then run[0].verdict.verified else before)
  }

  predicate AsksApproval(s: State) { s.answer.Some? ==> s.requiresApproval == s.answer.value.requiresApproval }

  lemma StepRecords(c: Config, i: Input)
    requires Step(c, i).Some?
    ensures var s := Step(c, i).value.s;
      && s.results == c.s.results + Found([i])
      && s.citations == c.s.citations + Cited([i])
      && s.route == LastRoute([i], c.s.route)
      && s.answer == LastAnswer([i], c.s.answer)
      && s.verified == LastVerdict([i], c.s.verified)
      && (i.Answered? || AsksApproval(c.s) ==> AsksApproval(s))
  {
    hide MergeMaps, SelectedFor, Without, Dispatch, AfterVerify;
    assert [i][1..] == [];
  }

  /** Reducing keeps everything that the services answer: after any run on any thread the results and
      citations are those of the thread and then those of the run, in order, and route, answer,
      verdict and the demand for approval are the last ones given. */
  lemma {:induction false} RunIsRecorded(c: Config, run: seq<Input>)
    requires Play(c, run).Some? && AsksApproval(c.s)
    ensures var s := Play(c, run).value.s;
      && s.results == c.s.results + Found(run)
      && s.citations == c.s.citations + Cited(run)
      && s.route == LastRoute(run, c.s.route)
      && s.answer == LastAnswer(run, c.s.answer)
      && s.verified == LastVerdict(run, c.s.verified)
      && AsksApproval(s)
    decreases |run|
  {
    hide Step, AsksApproval, Found, Cited, LastRoute, LastAnswer, LastVerdict;
    if run == [] {
      NothingRecorded(c.s);
    } else {
      var next := Step(c, run[0]).value;
      StepRecords(c, run[0]);
      RunIsRecorded(next, run[1..]);
      OneMore(run, c.s);
    }
  }

  lemma NothingRecorded(s: State)
    ensures Found([]) == [] && Cited([]) == [] && LastRoute([], s.route) == s.route
    ensures LastAnswer([], s.answer) == s.answer && LastVerdict([], s.verified) == s.verified
  {
  }

  lemma OneMore(run: seq<Input>, s: State)
    requires run != []
    ensures Found(run) == Found([run[0]]) + Found(run[1..]) && Cited(run) == Cited([run[0]]) + Cited(run[1..])
    ensures LastRoute(run, s.route) == LastRoute(run[1..], LastRoute([run[0]], s.route))
    ensures LastAnswer(run, s.answer) == LastAnswer(run[1..], LastAnswer([run[0]], s.answer))
    ensures LastVerdict(run, s.verified) == LastVerdict(run[1..], LastVerdict([run[0]], s.verified))
  {
    assert [run[0]][1..] == [];
  }

  /** Where a verdict leads, unless it names a target of its own: a first rejection goes back to the
      synthesis; otherwise the answer's own demand decides between the approval gate and the end. */
  lemma VerdictLeads(c: Config, v: Verdict)
    requires c.at == Verify && (v.retryTarget.None? || v.retryTarget == Some(Synthesize))
    ensures var next := Step(c, Judged(v));
      && next.Some?
      && next.value.at == (if !v.verified && Retries(c.s) == 0 then Synthesize
                           else if c.s.requiresApproval then ApprovalGate else Complete)
  {
  }

  lemma {:induction false} FirstOfAppend(old_: seq<Entry>, own: seq<Entry>, agent: Agent)
    ensures First(old_ + own, agent) == if agent in Agents(old_) then First(old_, agent) else First(own, agent)
  {
    if old_ == [] {
      assert old_ + own == own;
    } else {
      assert (old_ + own)[1..] == old_[1..] + own;
      FirstOfAppend(old_[1..], own, agent);
      assert Agents(old_) == [old_[0].agent] + Agents(old_[1..]);
    }
  }

  /** The two subagents of the hybrid route may finish in either order: what the synthesis looks up is
      the same, and on a thread without earlier results of these agents it is what they found. */
  lemma BranchOrderDoesNotMatter(thread: State, data: Findings, knowledge: Findings)
    ensures var d, k := Done(DataAnalysis, data), Done(KnowledgeResearch, knowledge);
      var a := Play(Start(thread), [Go, Routed(Hybrid), d, k]);
      var b := Play(Start(thread), [Go, Routed(Hybrid), k, d]);
      && a.Some? && b.Some? && a.value.at == b.value.at == Synthesize
      && (forall agent :: First(a.value.s.results, agent) == First(b.value.s.results, agent))
      && (DataAnalysis !in Agents(thread.results) ==> First(a.value.s.results, DataAnalysis) == data)
      && (KnowledgeResearch !in Agents(thread.results) ==> First(a.value.s.results, KnowledgeResearch) == knowledge)
      && multiset(a.value.s.results) == multiset(b.value.s.results)
      && multiset(a.value.s.citations) == multiset(b.value.s.citations)
  {
    hide First;
    var d, k := Entry(DataAnalysis, data), Entry(KnowledgeResearch, knowledge);
    HybridRun(thread, d, k);
    HybridRun(thread, k, d);
    forall agent ensures First(thread.results + [d, k], agent) == First(thread.results + [k, d], agent) {
      FirstOfAppend(thread.results, [d, k], agent);
      FirstOfAppend(thread.results, [k, d], agent);
      TwoEntries(d, k, agent);
    }
    FirstOfAppend(thread.results, [d, k], DataAnalysis);
    FirstOfAppend(thread.results, [d, k], KnowledgeResearch);
    TwoEntries(d, k, DataAnalysis);
    TwoEntries(d, k, KnowledgeResearch);
  }

  lemma TwoEntries(d: Entry, k: Entry, agent: Agent)
    requires d.agent != k.agent
    ensures First([d, k], agent) == First([k, d], agent)
    ensures agent == d.agent ==> First([d, k], agent) == d.findings
    ensures agent == k.agent ==> First([d, k], agent) == k.findings
  {
    assert [d, k][1..] == [k] && [k, d][1..] == [d];
  }

  lemma HybridRun(thread: State, x: Entry, y: Entry)
    requires x.agent != y.agent
    ensures var c := Play(Start(thread), [Go, Routed(Hybrid), Done(x.agent, x.findings), Done(y.agent, y.findings)]);
      && c.Some? && c.value.at == Synthesize && c.value.s.results == thread.results + [x, y]
      && c.value.s.citations == thread.citations + x.findings.citations + y.findings.citations
  {
    hide Reduce, Play;
    var d, k := Done(x.agent, x.findings), Done(y.agent, y.findings);
    PlayCons(Start(thread), Go, [Routed(Hybrid), d, k]);
    var c1 := Step(Start(thread), Go).value;
    assert c1.s.results == thread.results && c1.s.citations == thread.citations by { ContextStep(thread); }
    RoutedStep(c1, Hybrid);
    PlayCons(c1, Routed(Hybrid), [d, k]);
    assert [Go, Routed(Hybrid), d, k] == [Go] + ([Routed(Hybrid), d, k]);
    assert [Routed(Hybrid), d, k] == [Routed(Hybrid)] + [d, k];
    HybridRest(Step(c1, Routed(Hybrid)).value, x, y);
  }

  lemma ContextStep(thread: State)
    ensures var next := Step(Start(thread), Go);
      next.Some? && next.value.at == Router
      && next.value.s.results == thread.results && next.value.s.citations == thread.citations
  {
    hide MergeMaps;
  }

  lemma PlayCons(c: Config, i: Input, rest: seq<Input>)
    requires Step(c, i).Some?
    ensures Play(c, [i] + rest) == Play(Step(c, i).value, rest)
  {
    hide Step;
    assert ([i] + rest)[1..] == rest;
  }

  lemma TwoAgents(x: Agent, y: Agent)
    requires x != y
    ensures Without([DataAnalysis, KnowledgeResearch], x) == [y] && Without([y], y) == []
  {
  }

  lemma HybridRest(c: Config, x: Entry, y: Entry)
    requires x.agent != y.agent
    requires c.at == Subagents([DataAnalysis, KnowledgeResearch])
    ensures var d := Play(c, [Done(x.agent, x.findings), Done(y.agent, y.findings)]);
      && d.Some? && d.value.at == Synthesize && d.value.s.results == c.s.results + [x, y]
      && d.value.s.citations == c.s.citations + x.findings.citations + y.findings.citations
  {
    hide Step, Play, Without;
    var d, k := Done(x.agent, x.findings), Done(y.agent, y.findings);
    TwoAgents(x.agent, y.agent);
    DoneStep(c, x.agent, x.findings);
    var c1 := Step(c, d).value;
    DoneStep(c1, y.agent, y.findings);
    assert [d, k] == [d] + [k] && [k] == [k] + [];
    PlayCons(c, d, [k]);
    PlayCons(c1, k, []);
    LastStep(Step(c1, k).value);
  }

  lemma LastStep(c: Config)
    ensures Play(c, []) == Some(c)
  {
  }
}
