/** The client's picture of a run: a fold of `mergeAnalysisEvent` over the applied events. */
module Snapshot {
  import opened Wrappers
  import opened Sse
  import opened Encoder
  import EventLog
  import Resume

  datatype StageStatus = Pending | Running | Completed | Failed

  datatype Stage = Stage(id: string, name: string, status: StageStatus, detail: string)

  datatype Activity = Activity(event: string, message: string)

  datatype Outcome = Outcome(runId: string, sql: string, result: string, reportId: string)

  datatype Snapshot = Snapshot(
    runId: string,
    stages: seq<Stage>,
    activity: seq<Activity>,
    sqlDraft: string,
    citationCount: string,
    rowCount: string,
    chartReady: bool,
    outcome: Option<Outcome>,
    error: string)

  /** A parsed payload with its values in printed form; a missing or falsy value is "". */
  type Data = map<string, string>

  function Get(d: Data, key: string): string { if key in d then d[key] else "" }

  function Or(value: string, default: string): string { if value == "" then default else value }

  const LABELS: seq<(string, string)> := [
    ("router", "智能路由"), ("memory", "加载记忆"), ("rag", "深度检索"), ("subagent", "并行子代理"),
    ("schema", "读取数据结构"), ("sql_planner", "生成查询"), ("sql_guard", "校验查询"),
    ("query", "执行查询"), ("insight", "整理结论"), ("approval", "等待审批"), ("report", "生成报告")]

  function Label(labels: seq<(string, string)>, id: string): string {
    if labels == [] then "正在处理" else if labels[0].0 == id then labels[0].1 else Label(labels[1..], id)
  }

  function FreshStages(labels: seq<(string, string)>): seq<Stage> {
    if labels == [] then []
    else [Stage(labels[0].0, labels[0].1, Pending, "")] + FreshStages(labels[1..])
  }

  function FreshSnapshot(): Snapshot {
    Snapshot("", FreshStages(LABELS), [], "", "0", "", false, None, "")
  }

  function MapStages(stages: seq<Stage>, f: Stage -> Stage): (r: seq<Stage>)
    ensures |r| == |stages|
    ensures forall i | 0 <= i < |stages| :: r[i] == f(stages[i])
  {
    if stages == [] then [] else [f(stages[0])] + MapStages(stages[1..], f)
  }

  function SetStage(s: Snapshot, id: string, status: StageStatus, detail: string): Snapshot {
    s.(stages := MapStages(s.stages, (st: Stage) =>
      if st.id == id then st.(status := status, detail := detail) else st))
  }

  function Last8(list: seq<Activity>): (r: seq<Activity>)
    ensures |r| <= 8 && (|list| <= 8 ==> r == list) && (|list| > 8 ==> |r| == 8 && r == list[|list| - 8..])
  {
    if |list| <= 8 then list else list[|list| - 8..]
  }

  function WithActivity(s: Snapshot, line: Activity): Snapshot {
    s.(activity := Last8(s.activity + [line]))
  }

  /** The event types the client knows.  The two kinds of tool result are told apart by `tool`. */
  datatype Kind =
    | QueuedRun | RouteSelected | MemoryLoaded | SubagentStarted | SubagentCompleted | Handoff
    | RetrievalStage | Degraded | ApprovalRequired | StepStarted | SqlDraft | SqlRepair
    | SearchResult | QueryResult | ChartReady | RunCompleted | RunFailed | RunCancelled
    | ApprovalDecided | Unknown

  function KindOf(event: string, data: Data): Kind {
    match event
    case "queued" => QueuedRun
    case "route_selected" => RouteSelected
    case "memory_loaded" => MemoryLoaded
    case "subagent_started" => SubagentStarted
    case "subagent_completed" => SubagentCompleted
    case "handoff" => Handoff
    case "retrieval_stage" => RetrievalStage
    case "degraded" => Degraded
    case "approval_required" => ApprovalRequired
    case "step_started" => StepStarted
    case "sql_draft" => SqlDraft
    case "sql_repair" => SqlRepair
    case "tool_result" =>
      if Get(data, "tool") == "knowledge.search" then SearchResult
      else if Get(data, "tool") == "sql.query" then QueryResult else Unknown
    case "chart_ready" => ChartReady
    case "completed" => RunCompleted
    case "failed" => RunFailed
    case "cancelled" => RunCancelled
    case "approval_decided" => ApprovalDecided
    case _ => Unknown
  }

  /** The stage that an event moves. */
  function StageOf(k: Kind, data: Data): string {
    match k
    case RouteSelected => "router"
    case MemoryLoaded => "memory"
    case SubagentStarted => "subagent"
    case SubagentCompleted => "subagent"
    case RetrievalStage => "rag"
    case ApprovalRequired => "approval"
    case StepStarted => Get(data, "step")
    case SqlDraft => "sql_planner"
    case SqlRepair => "sql_planner"
    case SearchResult => "rag"
    case QueryResult => "query"
    case ChartReady => "insight"
    case _ => ""
  }

  /** The detail shown on that stage. */
  function DetailOf(k: Kind, data: Data): string {
    match k
    case RouteSelected => Or(Get(data, "route"), "hybrid") + " · 置信度 " + Or(Get(data, "confidence"), "0.00")
    case MemoryLoaded => "已加载 " + Or(Get(data, "count"), "0") + " 条相关记忆"
    case SubagentStarted => Get(data, "agent")
    case SubagentCompleted => Get(data, "agent")
    case RetrievalStage => Or(Get(data, "stage"), "retrieval") + " · " + Or(Get(data, "elapsed_ms"), "0") + "ms"
    case ApprovalRequired => "等待人工确认"
    case StepStarted => Or(Get(data, "message"), "处理中")
    case SqlDraft => "已生成查询草案"
    case SqlRepair => "正在修复查询"
    case SearchResult => "找到 " + Or(Get(data, "result_count"), "0") + " 条引用"
    case QueryResult => "返回 " + Or(Get(data, "row_count"), "0") + " 行"
    case ChartReady => "图表已就绪"
    case _ => ""
  }

  function Closing(k: Kind, data: Data): string {
    Or(Get(data, "message"),
       match k
       case RunCancelled => "分析已取消"
       case ApprovalDecided => "审批结果已记录"
       case _ => "分析失败")
  }

  /** The line that an event adds to the activity list. */
  function LineOf(k: Kind, data: Data): Activity {
    match k
    case QueuedRun => Activity("任务已创建", "已建立分析任务，正在读取可用资源")
    case RouteSelected => Activity("智能路由", DetailOf(k, data))
    case MemoryLoaded => Activity("长期记忆", DetailOf(k, data))
    case SubagentStarted => Activity("子代理", "启动 " + DetailOf(k, data))
    case SubagentCompleted => Activity("子代理", DetailOf(k, data) + " 已完成")
    case Handoff => Activity("任务交接", Or(Get(data, "from"), "agent") + " → " + Or(Get(data, "to"), "agent"))
    case RetrievalStage => Activity("Advanced RAG", DetailOf(k, data))
    case Degraded => Activity("降级保护", Or(Get(data, "stage"), "runtime") + " 已降级")
    case ApprovalRequired => Activity("需要审批", "高风险操作正在等待确认")
    case StepStarted => Activity(Label(LABELS, Get(data, "step")), DetailOf(k, data))
    case SqlDraft => Activity("查询规划", DetailOf(k, data))
    case SqlRepair => Activity("查询规划", DetailOf(k, data))
    case SearchResult => Activity("知识检索", DetailOf(k, data))
    case QueryResult => Activity("只读查询", DetailOf(k, data))
    case ChartReady => Activity("结果整理", "关键图表已就绪")
    case RunCompleted => Activity("分析完成", "业务结论与证据已生成")
    case RunFailed => Activity("分析失败", Closing(k, data))
    case RunCancelled => Activity("分析已取消", Closing(k, data))
    case ApprovalDecided => Activity("审批已处理", Closing(k, data))
    case Unknown => Activity("", "")
  }

  function SetsStage(s: Snapshot, k: Kind, data: Data, status: StageStatus): Snapshot {
    SetStage(s, StageOf(k, data), status, DetailOf(k, data))
  }

  function CloseRunning(s: Snapshot, message: string): Snapshot {
    s.(stages := MapStages(s.stages, (st: Stage) =>
      if st.status == Running then st.(status := Failed, detail := message) else st))
  }

  /** `mergeAnalysisEvent`. */
  function Merge(s: Snapshot, k: Kind, data: Data): Snapshot {
    var line := LineOf(k, data);
    match k
    case QueuedRun => WithActivity(s.(runId := Or(Get(data, "run_id"), s.runId)), line)
    case RouteSelected => WithActivity(SetsStage(s, k, data, Completed), line)
    case MemoryLoaded => WithActivity(SetsStage(s, k, data, Completed), line)
    case SubagentStarted => WithActivity(SetsStage(s, k, data, Running), line)
    case SubagentCompleted =>
      WithActivity(SetsStage(s, k, data, if Get(data, "status") == "failed" then Failed else Completed), line)
    case Handoff => WithActivity(s, line)
    case RetrievalStage => WithActivity(SetsStage(s, k, data, Running), line)
    case Degraded => WithActivity(s, line)
    case ApprovalRequired => WithActivity(SetsStage(s, k, data, Running), line)
    case StepStarted => WithActivity(SetsStage(s, k, data, Running), line)
    case SqlDraft =>
      WithActivity(SetsStage(s, k, data, Completed).(sqlDraft := Or(Get(data, "sql"), s.sqlDraft)), line)
    case SqlRepair =>
      WithActivity(SetsStage(s, k, data, Running).(sqlDraft := Or(Get(data, "sql"), s.sqlDraft)), line)
    case SearchResult =>
      WithActivity(SetsStage(s, k, data, Completed).(citationCount := Or(Get(data, "result_count"), "0")), line)
    case QueryResult =>
      WithActivity(SetsStage(s, k, data, Completed).(rowCount := Or(Get(data, "row_count"), "0")), line)
    case ChartReady => WithActivity(SetsStage(s, k, data, Completed).(chartReady := true), line)
    case RunCompleted =>
      WithActivity(s.(
        runId := Or(Get(data, "run_id"), s.runId),
        stages := MapStages(s.stages, (st: Stage) => st.(status := Completed, detail := Or(st.detail, "已完成"))),
        outcome := Some(Outcome(Get(data, "run_id"), Get(data, "sql"), Get(data, "result"), Get(data, "report_id")))),
        line)
    case RunFailed => WithActivity(CloseRunning(s, Closing(k, data)).(error := Closing(k, data)), line)
    case RunCancelled => WithActivity(CloseRunning(s, Closing(k, data)), line)
    case ApprovalDecided => WithActivity(s, line)
    case Unknown => s
  }

  // ---------------------------------------------------------------------------------------------
  // What an event says about one stage, the activity list and the run, each on its own
  // ---------------------------------------------------------------------------------------------

  datatype Touch = Nothing | SetsTo(id: string, status: StageStatus) | CompletesAll | FailsRunning

  function TouchOf(k: Kind, data: Data): Touch {
    match k
    case RunCompleted => CompletesAll
    case RunFailed => FailsRunning
    case RunCancelled => FailsRunning
    case SubagentStarted => SetsTo(StageOf(k, data), Running)
    case RetrievalStage => SetsTo(StageOf(k, data), Running)
    case ApprovalRequired => SetsTo(StageOf(k, data), Running)
    case StepStarted => SetsTo(StageOf(k, data), Running)
    case SqlRepair => SetsTo(StageOf(k, data), Running)
    case SubagentCompleted =>
      SetsTo(StageOf(k, data), if Get(data, "status") == "failed" then Failed else Completed)
    case RouteSelected => SetsTo(StageOf(k, data), Completed)
    case MemoryLoaded => SetsTo(StageOf(k, data), Completed)
    case SqlDraft => SetsTo(StageOf(k, data), Completed)
    case SearchResult => SetsTo(StageOf(k, data), Completed)
    case QueryResult => SetsTo(StageOf(k, data), Completed)
    case ChartReady => SetsTo(StageOf(k, data), Completed)
    case _ => Nothing
  }

  type Message = (Kind, Data)

  function Fold(s: Snapshot, events: seq<Message>): Snapshot {
    if events == [] then s
    else var e := events[|events| - 1]; Merge(Fold(s, events[..|events| - 1]), e.0, e.1)
  }

  /** The activity history as it would be without the limit of eight lines. */
  function History(events: seq<Message>): seq<Activity> {
    if events == [] then []
    else
      var e := events[|events| - 1];
      History(events[..|events| - 1]) + if e.0 == Unknown then [] else [LineOf(e.0, e.1)]
  }

  function Touched(t: Touch, id: string, before: StageStatus): StageStatus {
    match t
    case Nothing => before
    case SetsTo(target, status) => if target == id then status else before
    case CompletesAll => Completed
    case FailsRunning => if before == Running then Failed else before
  }

  /** The status of one stage from the events alone, looking at no other stage. */
  function StatusOf(events: seq<Message>, id: string): StageStatus {
    if events == [] then Pending
    else
      var e := events[|events| - 1];
      var before := StatusOf(events[..|events| - 1], id);
      Touched(TouchOf(e.0, e.1), id, before)
  }

  /** The run number from the events alone: the last one that a queued or completed event named. */
  function RunIdOf(events: seq<Message>): string {
    if events == [] then ""
    else
      var e := events[|events| - 1];
      if (e.0 == QueuedRun || e.0 == RunCompleted) && Get(e.1, "run_id") != "" then Get(e.1, "run_id")
      else RunIdOf(events[..|events| - 1])
  }

  predicate SameStages(a: seq<Stage>, b: seq<Stage>) {
    |a| == |b| && forall i | 0 <= i < |a| :: a[i].id == b[i].id && a[i].name == b[i].name
  }

  /** The stages of `after` are those of `before`, each with its touched status. */
  ghost predicate Moved(before: seq<Stage>, after: seq<Stage>, t: Touch) {
    && SameStages(after, before)
    && forall i | 0 <= i < |before| :: after[i].status == Touched(t, before[i].id, before[i].status)
  }

  lemma SetStageMoves(s: Snapshot, id: string, status: StageStatus, detail: string)
    ensures Moved(s.stages, SetStage(s, id, status, detail).stages, SetsTo(id, status))
  {
  }

  lemma CloseRunningMoves(s: Snapshot, message: string)
    ensures Moved(s.stages, CloseRunning(s, message).stages, FailsRunning)
  {
  }

  lemma CompletedMoves(s: Snapshot, data: Data)
    ensures Moved(s.stages, Merge(s, RunCompleted, data).stages, CompletesAll)
  {
    hide LineOf, DetailOf, StageOf, Closing, Or, Get, Last8;
  }

  lemma MergeStages(s: Snapshot, k: Kind, data: Data)
    ensures Moved(s.stages, Merge(s, k, data).stages, TouchOf(k, data))
  {
    hide LineOf, DetailOf, StageOf, Closing, Or, Get, MapStages, Last8, SetStage, CloseRunning, Moved;
    forall status { SetStageMoves(s, StageOf(k, data), status, DetailOf(k, data)); }
    CloseRunningMoves(s, Closing(k, data));
    CompletedMoves(s, data);
    UnmovedStages(s);
  }

  lemma UnmovedStages(s: Snapshot)
    ensures Moved(s.stages, s.stages, Nothing)
  {
  }

  lemma MergeActivity(s: Snapshot, k: Kind, data: Data)
    ensures Merge(s, k, data).activity
         == if k == Unknown then s.activity else Last8(s.activity + [LineOf(k, data)])
  {
    hide LineOf, DetailOf, StageOf, Closing, Or, Get, MapStages, Last8;
  }

  lemma MergeRunId(s: Snapshot, k: Kind, data: Data)
    ensures Merge(s, k, data).runId
         == if k == QueuedRun || k == RunCompleted then Or(Get(data, "run_id"), s.runId) else s.runId
  {
    hide LineOf, DetailOf, StageOf, Closing, Or, Get, MapStages, Last8;
  }

  lemma Last8Short(list: seq<Activity>)
    requires |list| <= 8
    ensures Last8(list) == list
  {
  }

  lemma Last8Twice(list: seq<Activity>, line: Activity)
    ensures Last8(Last8(list) + [line]) == Last8(list + [line])
  {
  }

  /** The snapshot after any event list: the stages keep their identities and order, each stage's
      status depends on its own events only, the activity list is the end of the full history, and
      a run number once seen is never lost. */
  lemma {:induction false} SnapshotFold(events: seq<Message>)
    ensures var s := Fold(FreshSnapshot(), events);
      && SameStages(s.stages, FreshStages(LABELS))
      && (forall i | 0 <= i < |s.stages| :: s.stages[i].status == StatusOf(events, s.stages[i].id))
      && s.activity == Last8(History(events)) && |s.activity| <= 8
      && s.runId == RunIdOf(events)
  {
    hide Merge, FreshStages, TouchOf, LineOf, Get, Last8, LABELS;
    if events == [] {
      FreshPending(LABELS);
      assert Last8([]) == [] by { Last8Short([]); }
    } else {
      var init, e := events[..|events| - 1], events[|events| - 1];
      SnapshotFold(init);
      var s := Fold(FreshSnapshot(), init);
      MergeStages(s, e.0, e.1);
      MergeActivity(s, e.0, e.1);
      MergeRunId(s, e.0, e.1);
      Last8Twice(History(init), LineOf(e.0, e.1));
      assert e.0 == Unknown ==> History(events) == History(init);
    }
  }

  lemma {:induction false} FreshPending(labels: seq<(string, string)>)
    ensures forall i | 0 <= i < |FreshStages(labels)| :: FreshStages(labels)[i].status == Pending
  {
    if labels != [] { FreshPending(labels[1..]); }
  }

  /** Right after a completed, failed or cancelled event no stage is running, whatever came before. */
  lemma NothingRunsAfterTheEnd(s: Snapshot, k: Kind, data: Data)
    requires k == RunCompleted || k == RunFailed || k == RunCancelled
    ensures forall i | 0 <= i < |s.stages| :: Merge(s, k, data).stages[i].status != Running
  {
    hide Merge;
    MergeStages(s, k, data);
  }

  // ---------------------------------------------------------------------------------------------
  // The snapshot by the names of the events
  // ---------------------------------------------------------------------------------------------

  /** An event as it arrives: its name and its payload. */
  type Named = (string, Data)

  function Known(events: seq<Named>): (r: seq<Message>)
    ensures |r| == |events| && forall i | 0 <= i < |r| :: r[i] == (KindOf(events[i].0, events[i].1), events[i].1)
  {
    seq(|events|, i requires 0 <= i < |events| => (KindOf(events[i].0, events[i].1), events[i].1))
  }

  /** The stages that an event moves, by its name. */
  function TouchByName(event: string, data: Data): Touch {
    match event
    case "route_selected" => SetsTo("router", Completed)
    case "memory_loaded" => SetsTo("memory", Completed)
    case "subagent_started" => SetsTo("subagent", Running)
    case "subagent_completed" => SetsTo("subagent", if Get(data, "status") == "failed" then Failed else Completed)
    case "retrieval_stage" => SetsTo("rag", Running)
    case "approval_required" => SetsTo("approval", Running)
    case "step_started" => SetsTo(Get(data, "step"), Running)
    case "sql_draft" => SetsTo("sql_planner", Completed)
    case "sql_repair" => SetsTo("sql_planner", Running)
    case "tool_result" =>
      if Get(data, "tool") == "knowledge.search" then SetsTo("rag", Completed)
      else if Get(data, "tool") == "sql.query" then SetsTo("query", Completed) else Nothing
    case "chart_ready" => SetsTo("insight", Completed)
    case "completed" => CompletesAll
    case "failed" => FailsRunning
    case "cancelled" => FailsRunning
    case _ => Nothing
  }

  /** Which names the kinds stand for. */
  lemma RunKinds(event: string, data: Data)
    ensures KindOf(event, data) == QueuedRun <==> event == "queued"
    ensures KindOf(event, data) == RunCompleted <==> event == "completed"
    ensures KindOf(event, data) == RunFailed <==> event == "failed"
  {
    hide Get;
  }

  lemma QueryKinds(event: string, data: Data)
    ensures KindOf(event, data) == SqlDraft <==> event == "sql_draft"
    ensures KindOf(event, data) == SqlRepair <==> event == "sql_repair"
    ensures KindOf(event, data) == ChartReady <==> event == "chart_ready"
    ensures KindOf(event, data) == SearchResult <==>
      event == "tool_result" && Get(data, "tool") == "knowledge.search"
    ensures KindOf(event, data) == QueryResult <==> event == "tool_result" && Get(data, "tool") == "sql.query"
  {
    hide Get;
  }

  lemma TouchedByName(event: string, data: Data)
    ensures TouchOf(KindOf(event, data), data) == TouchByName(event, data)
  {
    hide Get;
  }

  function StatusByName(events: seq<Named>, id: string): StageStatus {
    if events == [] then Pending
    else
      var e := events[|events| - 1];
      Touched(TouchByName(e.0, e.1), id, StatusByName(events[..|events| - 1], id))
  }

  /** The other fields, each from the last event that sets it. */
  datatype Fields = Fields(runId: string, sqlDraft: string, citationCount: string, rowCount: string,
                           chartReady: bool, outcome: Option<Outcome>, error: string)

  function FieldsOf(s: Snapshot): Fields {
    Fields(s.runId, s.sqlDraft, s.citationCount, s.rowCount, s.chartReady, s.outcome, s.error)
  }

  function FieldsAfter(f: Fields, event: string, data: Data): Fields {
    if event == "queued" then f.(runId := Or(Get(data, "run_id"), f.runId))
    else if event == "sql_draft" || event == "sql_repair" then f.(sqlDraft := Or(Get(data, "sql"), f.sqlDraft))
    else if event == "tool_result" && Get(data, "tool") == "knowledge.search" then
      f.(citationCount := Or(Get(data, "result_count"), "0"))
    else if event == "tool_result" && Get(data, "tool") == "sql.query" then
      f.(rowCount := Or(Get(data, "row_count"), "0"))
    else if event == "chart_ready" then f.(chartReady := true)
    else if event == "completed" then
      f.(runId := Or(Get(data, "run_id"), f.runId),
         outcome := Some(Outcome(Get(data, "run_id"), Get(data, "sql"), Get(data, "result"), Get(data, "report_id"))))
    else if event == "failed" then f.(error := Or(Get(data, "message"), "分析失败"))
    else f
  }

  function FieldsByName(events: seq<Named>): Fields {
    if events == [] then Fields("", "", "0", "", false, None, "")
    else
      var e := events[|events| - 1];
      FieldsAfter(FieldsByName(events[..|events| - 1]), e.0, e.1)
  }

  lemma MergedFields(s: Snapshot, event: string, data: Data)
    ensures FieldsOf(Merge(s, KindOf(event, data), data)) == FieldsAfter(FieldsOf(s), event, data)
  {
    hide KindOf, Merge, Get, Or;
    RunKinds(event, data);
    QueryKinds(event, data);
    FieldsByKind(s, KindOf(event, data), data);
  }

  lemma FieldsByKind(s: Snapshot, k: Kind, data: Data)
    ensures var f := FieldsOf(s);
      FieldsOf(Merge(s, k, data)) ==
      match k
      case QueuedRun => f.(runId := Or(Get(data, "run_id"), f.runId))
      case SqlDraft => f.(sqlDraft := Or(Get(data, "sql"), f.sqlDraft))
      case SqlRepair => f.(sqlDraft := Or(Get(data, "sql"), f.sqlDraft))
      case SearchResult => f.(citationCount := Or(Get(data, "result_count"), "0"))
      case QueryResult => f.(rowCount := Or(Get(data, "row_count"), "0"))
      case ChartReady => f.(chartReady := true)
      case RunCompleted =>
        f.(runId := Or(Get(data, "run_id"), f.runId),
           outcome := Some(Outcome(Get(data, "run_id"), Get(data, "sql"), Get(data, "result"),
                                   Get(data, "report_id"))))
      case RunFailed => f.(error := Or(Get(data, "message"), "分析失败"))
      case _ => f
  {
    hide LineOf, DetailOf, StageOf, Get, MapStages, Last8, Or;
  }

  /** After any event list: the status of each stage and every other field, by the names and payloads of
      the events alone. */
  lemma {:induction false} SnapshotByName(events: seq<Named>)
    ensures var s := Fold(FreshSnapshot(), Known(events));
      && (forall i | 0 <= i < |s.stages| :: s.stages[i].status == StatusByName(events, s.stages[i].id))
      && FieldsOf(s) == FieldsByName(events)
  {
    hide Merge, FreshStages, TouchOf, TouchByName, KindOf, FieldsAfter, LABELS, Moved, Touched;
    if events == [] {
      FreshPending(LABELS);
      assert Known(events) == [];
    } else {
      var init, e := events[..|events| - 1], events[|events| - 1];
      SnapshotByName(init);
      assert Known(events)[..|events| - 1] == Known(init);
      var s := Fold(FreshSnapshot(), Known(init));
      MergedFields(s, e.0, e.1);
      MergedStatus(s, e, events);
    }
  }

  lemma MergedStatus(s: Snapshot, e: Named, events: seq<Named>)
    requires events != [] && e == events[|events| - 1]
    requires forall i | 0 <= i < |s.stages| ::
      s.stages[i].status == StatusByName(events[..|events| - 1], s.stages[i].id)
    ensures var stages := Merge(s, KindOf(e.0, e.1), e.1).stages;
      forall i | 0 <= i < |stages| :: stages[i].status == StatusByName(events, stages[i].id)
  {
    hide Merge, TouchOf, TouchByName, KindOf, Touched;
    MergeStages(s, KindOf(e.0, e.1), e.1);
    TouchedByName(e.0, e.1);
  }

  // ---------------------------------------------------------------------------------------------
  // The live snapshot of a resumable stream
  // ---------------------------------------------------------------------------------------------

  function MessageOf(e: SseEvent, read: string -> Data): Message {
    (KindOf(e.event, read(e.data)), read(e.data))
  }

  function Messages(events: seq<SseEvent>, read: string -> Data): (r: seq<Message>)
    ensures |r| == |events|
  {
    seq(|events|, i requires 0 <= i < |events| => MessageOf(events[i], read))
  }

  lemma {:induction false} FoldAppend(s: Snapshot, a: seq<Message>, b: seq<Message>)
    ensures Fold(s, a + b) == Fold(Fold(s, a), b)
  {
    hide Merge;
    if b == [] {
      assert a + b == a;
    } else {
      assert (a + b)[..|a + b| - 1] == a + b[..|b| - 1];
      FoldAppend(s, a, b[..|b| - 1]);
    }
  }

  /** The snapshot on the screen: every delivery merges the events it completed. */
  function Live(w: Resume.World, r: string, json: string -> bool, steps: seq<Resume.Step>,
                read: string -> Data): Snapshot {
    if steps == [] then FreshSnapshot()
    else
      var init, step := steps[..|steps| - 1], steps[|steps| - 1];
      var before, at := Live(w, r, json, init, read), Resume.Play(w, r, json, init);
      match step
      case Deliver(n) =>
        var text := Wire(at.conn.stream.frames);
        if at.client.got + n > |text| then before
        else
          var piece := text[at.client.got..at.client.got + n];
          Fold(before, Messages(ParseSseEvents(Closed(Complete(at.client.buffer + piece)), json), read))
      case _ => before
  }

  /** Only a delivery changes what has been applied, and it appends. */
  lemma AppliedStep(w: Resume.World, r: string, json: string -> bool, step: Resume.Step)
    ensures var text := Wire(w.conn.stream.frames);
      Resume.Next(w, r, json, step).client.applied ==
      if step.Deliver? && w.client.got + step.n <= |text| then
        w.client.applied + ParseSseEvents(
          Closed(Complete(w.client.buffer + text[w.client.got..w.client.got + step.n])), json)
      else w.client.applied
  {
    hide EventLog.Apply, Resume.Poll, ParseSseEvents, Closed, Complete, Remainder, Wire, Resume.LastIdFrom;
  }

  lemma FoldMessages(a: seq<SseEvent>, b: seq<SseEvent>, read: string -> Data)
    ensures Fold(FreshSnapshot(), Messages(a + b, read))
         == Fold(Fold(FreshSnapshot(), Messages(a, read)), Messages(b, read))
  {
    hide Merge, FreshSnapshot, MessageOf;
    assert Messages(a + b, read) == Messages(a, read) + Messages(b, read);
    FoldAppend(FreshSnapshot(), Messages(a, read), Messages(b, read));
  }

  lemma {:induction false} LiveIsFold(db: EventLog.Db, r: string, json: string -> bool,
                                      steps: seq<Resume.Step>, read: string -> Data)
    ensures Live(Resume.Start(db), r, json, steps, read)
         == Fold(FreshSnapshot(), Messages(Resume.Play(Resume.Start(db), r, json, steps).client.applied, read))
  {
    hide FreshSnapshot, Messages, Resume.Next, ParseSseEvents, Closed, Complete, Wire, Fold;
    if steps == [] {
      FoldNothing(read);
    } else {
      var init, step := steps[..|steps| - 1], steps[|steps| - 1];
      LiveIsFold(db, r, json, init, read);
      var at := Resume.Play(Resume.Start(db), r, json, init);
      AppliedStep(at, r, json, step);
      if step.Deliver? && at.client.got + step.n <= |Wire(at.conn.stream.frames)| {
        var piece := Wire(at.conn.stream.frames)[at.client.got..at.client.got + step.n];
        FoldMessages(at.client.applied, ParseSseEvents(Closed(Complete(at.client.buffer + piece)), json), read);
      }
    }
  }

  lemma FoldNothing(read: string -> Data)
    ensures Fold(FreshSnapshot(), Messages([], read)) == FreshSnapshot()
  {
  }

  /** However often the connection broke, the live snapshot is one fold over the visible events of
      the log up to the last number applied. */
  lemma LiveSnapshotIsOneFold(db: EventLog.Db, r: string, json: string -> bool,
                              steps: seq<Resume.Step>, read: string -> Data)
    requires EventLog.Sound(db) && Resume.DbPrinted(db, json)
    requires forall i | 0 <= i < |steps| :: Resume.Writable(steps[i], json)
    ensures var w := Resume.Play(Resume.Start(db), r, json, steps);
      && w.client.lastId <= |EventLog.LogOf(w.db, r)|
      && Live(Resume.Start(db), r, json, steps, read)
         == Fold(FreshSnapshot(),
                 Messages(VisibleOf(EventLog.LogOf(w.db, r)[..w.client.lastId], json), read))
  {
    hide Fold, FreshSnapshot, Messages, Live, Resume.Play, VisibleOf, Visible;
    LiveIsFold(db, r, json, steps, read);
    Resume.ExactlyOnce(db, r, json, steps);
  }
}
