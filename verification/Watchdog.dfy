/** The lifecycle of background tasks: ingestion, manual retries and cancellation, and the sweep
    that makes stalled work visible. */
module Watchdog {
  import opened Wrappers
  import opened Sequences

  type TaskId = string

  datatype TaskStatus = Queued | Processing | Running | Completed | Failed | Cancelled

  /** The columns of an ingestion task that the lifecycle uses. */
  datatype Task = Task(
    status: TaskStatus,
    attempts: nat,
    maxAttempts: nat,
    deadLetter: bool,
    createdAt: int,
    updatedAt: Option<int>,
    nextRetryAt: Option<int>,
    error: string)

  datatype Settings = Settings(queuedTimeout: int, runningTimeout: int)

  const TIMED_OUT := "摄取任务超时，已由看门狗重新排队"
  const EXHAUSTED := "摄取任务超时且已达到最大尝试次数，已转入死信队列"
  const NOT_REPEATED := Note("任务超时，未自动重复外部操作；请检查原因后重试", map[])
  const RUN_TIMED_OUT :=
    Note("分析运行超时或连接中断，请重试。",
         map["error" := "分析运行超时或连接中断，请重试。", "failure_reason" := "watchdog_timeout"])

  /** `_expired`. */
  predicate Expired(value: Option<int>, cutoff: int) { value.Some? && value.value <= cutoff }

  function Cutoff(s: TaskStatus, now: int, settings: Settings): int {
    now - if s == Queued then settings.queuedTimeout else settings.runningTimeout
  }

  // ---------------------------------------------------------------------------------------------
  // One ingestion task under the sweep
  // ---------------------------------------------------------------------------------------------

  datatype Verdict = Keep | Requeue | DeadLetter

  predicate Stalled(t: Task, now: int, settings: Settings) {
    && (t.status == Queued || t.status == Processing)
    && Expired(if t.updatedAt.Some? then t.updatedAt else Some(t.createdAt), Cutoff(t.status, now, settings))
  }

  function Judge(t: Task, now: int, settings: Settings): Verdict {
    if !Stalled(t, now, settings) then Keep
    else if t.attempts < t.maxAttempts then Requeue else DeadLetter
  }

  /** What a sweep compares with its cutoff. */
  function Since(t: Task): int { if t.updatedAt.Some? then t.updatedAt.value else t.createdAt }

  /** A queued task is stalled once the queued timeout is over since its last change, and one being
      processed once the running timeout is; no other task is. */
  lemma StalledExactly(t: Task, now: int, settings: Settings)
    ensures Stalled(t, now, settings) <==>
      || (t.status == Queued && Since(t) + settings.queuedTimeout <= now)
      || (t.status == Processing && Since(t) + settings.runningTimeout <= now)
  {
  }

  /** The row after the sweep; the database stamps `updatedAt` on every row that is written. */
  function Swept(t: Task, now: int, settings: Settings): Task {
    match Judge(t, now, settings)
    case Keep => t
    case Requeue => t.(status := Queued, nextRetryAt := Some(now), error := TIMED_OUT, updatedAt := Some(now))
    case DeadLetter => t.(status := Failed, deadLetter := true, error := EXHAUSTED, updatedAt := Some(now))
  }

  /** A row swept twice at the same time: nothing changes, and a requeued row is stalled at once
      exactly if the queued timeout is not positive. */
  lemma SweptTwice(t: Task, now: int, settings: Settings)
    ensures Swept(Swept(t, now, settings), now, settings) == Swept(t, now, settings)
    ensures Judge(Swept(t, now, settings), now, settings)
         == if Judge(t, now, settings) == Requeue && settings.queuedTimeout <= 0 then Requeue else Keep
  {
  }

  // ---------------------------------------------------------------------------------------------
  // The table objects
  // ---------------------------------------------------------------------------------------------

  class Document {
    var status: TaskStatus
    var error: string

    constructor (status: TaskStatus)
      ensures this.status == status && error == ""
    {
      this.status, error := status, "";
    }
  }

  class IngestionTask {
    const id: TaskId
    const document: Document?
    const maxAttempts: nat
    const createdAt: int
    var status: TaskStatus
    var attempts: nat
    var deadLetter: bool
    var updatedAt: Option<int>
    var nextRetryAt: Option<int>
    var error: string

    ghost function View(): Task
      reads this
    {
      Task(status, attempts, maxAttempts, deadLetter, createdAt, updatedAt, nextRetryAt, error)
    }

    constructor (id: TaskId, document: Document?, maxAttempts: nat, now: int)
      ensures View() == Task(Queued, 0, maxAttempts, false, now, Some(now), None, "")
    {
      this.id, this.document, this.maxAttempts, createdAt := id, document, maxAttempts, now;
      status, attempts, deadLetter, updatedAt, nextRetryAt, error := Queued, 0, false, Some(now), None, "";
    }
  }

  /** The columns that the schema-sync, dashboard-refresh, report-export and analysis tables share;
      only an analysis run has a result. */
  datatype Job = Job(status: TaskStatus, createdAt: Option<int>, startedAt: Option<int>,
                     finishedAt: Option<int>, error: string, result: map<string, string>)

  /** What a sweep writes into a stalled row: its error text, and what it adds to the result. */
  datatype Note = Note(error: string, result: map<string, string>)

  predicate JobStalled(j: Job, now: int, settings: Settings) {
    && (j.status == Queued || j.status == Running)
    && Expired(if j.status == Running && j.startedAt.Some? then j.startedAt else j.createdAt,
               Cutoff(j.status, now, settings))
  }

  /** The queued timeout counts from the creation, the running timeout from the start, or from the
      creation if no start is known; a row without a time is never stalled. */
  lemma JobStalledExactly(j: Job, now: int, settings: Settings)
    ensures JobStalled(j, now, settings) <==>
      || (j.status == Queued && j.createdAt.Some? && j.createdAt.value + settings.queuedTimeout <= now)
      || (j.status == Running && j.startedAt.Some? && j.startedAt.value + settings.runningTimeout <= now)
      || (j.status == Running && j.startedAt.None? && j.createdAt.Some?
          && j.createdAt.value + settings.runningTimeout <= now)
  {
  }

  function JobSwept(j: Job, now: int, settings: Settings, note: Note): Job {
    if !JobStalled(j, now, settings) then j
    else j.(status := Failed, finishedAt := Some(now), error := note.error, result := j.result + note.result)
  }

  class JobRow {
    const id: TaskId
    var status: TaskStatus
    const createdAt: Option<int>
    var startedAt: Option<int>
    var finishedAt: Option<int>
    var error: string
    var result: map<string, string>

    ghost function View(): Job
      reads this
    {
      Job(status, createdAt, startedAt, finishedAt, error, result)
    }

    constructor (id: TaskId, now: int)
      ensures View() == Job(Queued, Some(now), None, None, "", map[])
    {
      this.id, createdAt := id, Some(now);
      status, startedAt, finishedAt, error, result := Queued, None, None, "", map[];
    }
  }

  datatype Audit = Audit(action: string, resource: TaskId)

  /** The identifiers of the rows that get a given verdict, in table order. */
  function WithVerdict(ids: seq<TaskId>, rows: seq<Task>, v: Verdict, now: int, settings: Settings): seq<TaskId>
    requires |ids| == |rows|
  {
    if rows == [] then []
    else
      var n := |rows| - 1;
      WithVerdict(ids[..n], rows[..n], v, now, settings)
      + if Judge(rows[n], now, settings) == v then [ids[n]] else []
  }

  /** The audit row for one task, which names it and what was done. */
  function AuditsOf(v: Verdict, id: TaskId): seq<Audit> {
    match v
    case Keep => []
    case Requeue => [Audit("task.watchdog_requeued", id)]
    case DeadLetter => [Audit("task.watchdog_dead_lettered", id)]
  }

  function IngestionAudits(ids: seq<TaskId>, rows: seq<Task>, now: int, settings: Settings): seq<Audit>
    requires |ids| == |rows|
  {
    if rows == [] then []
    else
      var n := |rows| - 1;
      IngestionAudits(ids[..n], rows[..n], now, settings) + AuditsOf(Judge(rows[n], now, settings), ids[n])
  }

  function JobAudits(ids: seq<TaskId>, rows: seq<Job>, action: string, now: int, settings: Settings): seq<Audit>
    requires |ids| == |rows|
  {
    if rows == [] then []
    else
      var n := |rows| - 1;
      JobAudits(ids[..n], rows[..n], action, now, settings)
      + if JobStalled(rows[n], now, settings) then [Audit(action, ids[n])] else []
  }

  ghost function Ids(tasks: seq<IngestionTask>): seq<TaskId> {
    seq(|tasks|, i requires 0 <= i < |tasks| => tasks[i].id)
  }

  ghost function Views(tasks: seq<IngestionTask>): (r: seq<Task>)
    reads tasks
    ensures |r| == |tasks| && forall i | 0 <= i < |tasks| :: r[i] == tasks[i].View()
  {
    seq(|tasks|, i requires 0 <= i < |tasks| reads tasks => tasks[i].View())
  }

  ghost function JobIds(jobs: seq<JobRow>): seq<TaskId> {
    seq(|jobs|, i requires 0 <= i < |jobs| => jobs[i].id)
  }

  ghost function JobViews(jobs: seq<JobRow>): (r: seq<Job>)
    reads jobs
    ensures |r| == |jobs| && forall i | 0 <= i < |jobs| :: r[i] == jobs[i].View()
  {
    seq(|jobs|, i requires 0 <= i < |jobs| reads jobs => jobs[i].View())
  }

  ghost function Documents(tasks: seq<IngestionTask>): set<Document> {
    set t | t in tasks && t.document != null :: t.document
  }

  lemma VerdictStep(ids: seq<TaskId>, rows: seq<Task>, i: nat, now: int, settings: Settings)
    requires |ids| == |rows| && i < |rows|
    ensures WithVerdict(ids[..i + 1], rows[..i + 1], Requeue, now, settings)
         == WithVerdict(ids[..i], rows[..i], Requeue, now, settings)
            + if Judge(rows[i], now, settings) == Requeue then [ids[i]] else []
    ensures IngestionAudits(ids[..i + 1], rows[..i + 1], now, settings)
         == IngestionAudits(ids[..i], rows[..i], now, settings)
            + AuditsOf(Judge(rows[i], now, settings), ids[i])
  {
    assert ids[..i + 1][..i] == ids[..i] && rows[..i + 1][..i] == rows[..i];
  }

  /** The loop body of the ingestion sweep, for one task: what it adds to the retries and the audit. */
  method SweepOne(task: IngestionTask, now: int, settings: Settings)
    returns (retries: seq<TaskId>, audits: seq<Audit>)
    modifies task, task.document
    ensures var verdict := old(Judge(task.View(), now, settings));
      && retries == (if verdict == Requeue then [task.id] else [])
      && audits == AuditsOf(verdict, task.id)
      && (task.document != null ==> if verdict != DeadLetter then unchanged(task.document)
                                    else task.document.status == Failed && task.document.error == EXHAUSTED)
    ensures task.View() == Swept(old(task.View()), now, settings)
  {
    if task.status != Queued && task.status != Processing {
      return [], [];
    }
    var reference := if task.updatedAt.Some? then task.updatedAt else Some(task.createdAt);
    if !Expired(reference, Cutoff(task.status, now, settings)) {
      return [], [];
    }
    task.updatedAt := Some(now);
    if task.attempts < task.maxAttempts {
      task.status := Queued;
      task.nextRetryAt := Some(now);
      task.error := TIMED_OUT;
      return [task.id], [Audit("task.watchdog_requeued", task.id)];
    }
    task.status := Failed;
    task.deadLetter := true;
    task.error := EXHAUSTED;
    if task.document != null {
      task.document.status := Failed;
      task.document.error := EXHAUSTED;
    }
    return [], [Audit("task.watchdog_dead_lettered", task.id)];
  }

  /** None of the first `n` tasks has dead-lettered this document's ingestion. */
  ghost predicate Spared(tasks: seq<IngestionTask>, rows: seq<Task>, n: nat, d: Document, now: int, settings: Settings)
    requires n <= |tasks| == |rows|
  {
    forall k | 0 <= k < n && tasks[k].document == d :: Judge(rows[k], now, settings) != DeadLetter
  }

  lemma SparedStep(tasks: seq<IngestionTask>, rows: seq<Task>, i: nat, d: Document, now: int, settings: Settings)
    requires i < |tasks| == |rows|
    ensures Spared(tasks, rows, i + 1, d, now, settings) <==>
      (Spared(tasks, rows, i, d, now, settings)
       && !(tasks[i].document == d && Judge(rows[i], now, settings) == DeadLetter))
  {
    hide Judge;
  }

  lemma NoneSpared(tasks: seq<IngestionTask>, rows: seq<Task>, d: Document, now: int, settings: Settings)
    requires |tasks| == |rows|
    ensures Spared(tasks, rows, 0, d, now, settings)
  {
  }

  /** The ingestion part of the sweep.  Every row ends as its verdict says; the retries are the
      requeued rows in table order, and there is one audit row for each row that changed.  The
      document of a dead-lettered row is failed, and no other document is touched. */
  method SweepIngestion(tasks: seq<IngestionTask>, now: int, settings: Settings)
    returns (retries: seq<TaskId>, audits: seq<Audit>)
    requires Distinct(tasks)
    modifies tasks, Documents(tasks)
    ensures forall i | 0 <= i < |tasks| :: tasks[i].View() == Swept(old(tasks[i].View()), now, settings)
    ensures retries == WithVerdict(Ids(tasks), old(Views(tasks)), Requeue, now, settings)
    ensures audits == IngestionAudits(Ids(tasks), old(Views(tasks)), now, settings)
    ensures forall d: Document | d in Documents(tasks) ::
      if Spared(tasks, old(Views(tasks)), |tasks|, d, now, settings) then unchanged(d)
      else d.status == Failed && d.error == EXHAUSTED
  {
    hide Judge, Swept, WithVerdict, IngestionAudits, AuditsOf, Spared;
    retries, audits := [], [];
    ghost var rows, ids := Views(tasks), Ids(tasks);
    NothingSwept(now, settings);
    forall d: Document ensures Spared(tasks, rows, 0, d, now, settings) { NoneSpared(tasks, rows, d, now, settings); }
    var i := 0;
    while i < |tasks|
      invariant 0 <= i <= |tasks|
      invariant forall k | 0 <= k < i :: tasks[k].View() == Swept(rows[k], now, settings)
      invariant forall k | i <= k < |tasks| :: tasks[k].View() == rows[k]
      invariant retries == WithVerdict(ids[..i], rows[..i], Requeue, now, settings)
      invariant audits == IngestionAudits(ids[..i], rows[..i], now, settings)
      invariant forall d: Document | d in Documents(tasks) ::
        if Spared(tasks, rows, i, d, now, settings) then unchanged(d)
        else d.status == Failed && d.error == EXHAUSTED
    {
      VerdictStep(ids, rows, i, now, settings);
      forall d: Document | d in Documents(tasks)
        ensures Spared(tasks, rows, i + 1, d, now, settings) <==>
          (Spared(tasks, rows, i, d, now, settings)
           && !(tasks[i].document == d && Judge(rows[i], now, settings) == DeadLetter))
      {
        SparedStep(tasks, rows, i, d, now, settings);
      }
      var task := tasks[i];
      assert task.document != null ==> task.document in Documents(tasks);
      var retry, audit := SweepOne(task, now, settings);
      retries := retries + retry;
      audits := audits + audit;
      i := i + 1;
    }
    assert ids[..i] == ids && rows[..i] == rows;
  }

  lemma NothingSwept(now: int, settings: Settings)
    ensures WithVerdict([], [], Requeue, now, settings) == []
    ensures IngestionAudits([], [], now, settings) == []
  {
  }

  /** The part of the sweep that never repeats external work: schema sync, dashboard refresh,
      report export, and analysis runs.  Nothing stays in progress past its cutoff. */
  method SweepJobs(jobs: seq<JobRow>, action: string, note: Note, now: int, settings: Settings)
    returns (audits: seq<Audit>)
    requires Distinct(jobs)
    modifies jobs
    ensures forall i | 0 <= i < |jobs| :: jobs[i].View() == JobSwept(old(jobs[i].View()), now, settings, note)
    ensures forall i | 0 <= i < |jobs| :: !JobStalled(jobs[i].View(), now, settings)
    ensures audits == JobAudits(JobIds(jobs), old(JobViews(jobs)), action, now, settings)
  {
    hide JobAudits;
    audits := [];
    ghost var rows, ids := JobViews(jobs), JobIds(jobs);
    NoJobsSwept(action, now, settings);
    var i := 0;
    while i < |jobs|
      invariant 0 <= i <= |jobs|
      invariant forall k | 0 <= k < i :: jobs[k].View() == JobSwept(rows[k], now, settings, note)
      invariant forall k | i <= k < |jobs| :: jobs[k].View() == rows[k]
      invariant audits == JobAudits(ids[..i], rows[..i], action, now, settings)
    {
      JobAuditsStep(ids, rows, action, i, now, settings);
      var job := jobs[i];
      i := i + 1;
      if job.status != Queued && job.status != Running {
        continue;
      }
      var reference := if job.status == Running then job.startedAt else None;
      if reference.None? {
        reference := job.createdAt;
      }
      if !Expired(reference, Cutoff(job.status, now, settings)) {
        continue;
      }
      job.status := Failed;
      job.error := note.error;
      job.finishedAt := Some(now);
      job.result := job.result + note.result;
      audits := audits + [Audit(action, job.id)];
    }
    assert ids[..i] == ids && rows[..i] == rows;
  }

  lemma NoJobsSwept(action: string, now: int, settings: Settings)
    ensures JobAudits([], [], action, now, settings) == []
  {
  }

  lemma JobAuditsStep(ids: seq<TaskId>, rows: seq<Job>, action: string, i: nat, now: int, settings: Settings)
    requires |ids| == |rows| && i < |rows|
    ensures JobAudits(ids[..i + 1], rows[..i + 1], action, now, settings)
         == JobAudits(ids[..i], rows[..i], action, now, settings)
            + if JobStalled(rows[i], now, settings) then [Audit(action, ids[i])] else []
  {
    assert ids[..i + 1][..i] == ids[..i] && rows[..i + 1][..i] == rows[..i];
  }

  /** `reconcile_stalled_tasks`; `jobs` are the sync, refresh and export rows, one table after the
      other. */
  method ReconcileStalledTasks(ingestion: seq<IngestionTask>, jobs: seq<JobRow>, runs: seq<JobRow>,
                               now: int, settings: Settings)
    returns (retries: seq<TaskId>, audits: seq<Audit>)
    requires Distinct(ingestion) && Distinct(jobs) && Distinct(runs)
    requires forall i, j | 0 <= i < |jobs| && 0 <= j < |runs| :: jobs[i] != runs[j]
    modifies ingestion, Documents(ingestion), jobs, runs
    ensures forall i | 0 <= i < |ingestion| :: ingestion[i].View() == Swept(old(ingestion[i].View()), now, settings)
    ensures retries == WithVerdict(Ids(ingestion), old(Views(ingestion)), Requeue, now, settings)
    ensures forall i | 0 <= i < |jobs| ::
      jobs[i].View() == JobSwept(old(jobs[i].View()), now, settings, NOT_REPEATED)
    ensures forall i | 0 <= i < |runs| ::
      runs[i].View() == JobSwept(old(runs[i].View()), now, settings, RUN_TIMED_OUT)
    ensures forall i | 0 <= i < |jobs| :: !JobStalled(jobs[i].View(), now, settings)
    ensures forall i | 0 <= i < |runs| :: !JobStalled(runs[i].View(), now, settings)
    ensures audits == IngestionAudits(Ids(ingestion), old(Views(ingestion)), now, settings)
      + JobAudits(JobIds(jobs), old(JobViews(jobs)), "task.watchdog_failed", now, settings)
      + JobAudits(JobIds(runs), old(JobViews(runs)), "analysis.watchdog_failed", now, settings)
    ensures forall d: Document | d in Documents(ingestion) ::
      if Spared(ingestion, old(Views(ingestion)), |ingestion|, d, now, settings) then unchanged(d)
      else d.status == Failed && d.error == EXHAUSTED
  {
    hide JobAudits, IngestionAudits, WithVerdict, JobSwept, Swept, JobStalled, Spared;
    var more;
    retries, audits := SweepIngestion(ingestion, now, settings);
    assert JobViews(jobs) == old(JobViews(jobs));
    assert JobViews(runs) == old(JobViews(runs));
    more := SweepJobs(jobs, "task.watchdog_failed", NOT_REPEATED, now, settings);
    audits := audits + more;
    assert JobViews(runs) == old(JobViews(runs));
    more := SweepJobs(runs, "analysis.watchdog_failed", RUN_TIMED_OUT, now, settings);
    audits := audits + more;
  }

  /** The retries are exactly the requeued rows: each stalled row with an attempt left, and no
      other; each at most once when the table's identifiers are distinct. */
  lemma {:induction false} RetriesAreRequeued(ids: seq<TaskId>, rows: seq<Task>, now: int, settings: Settings)
    requires |ids| == |rows| && Distinct(ids)
    ensures var retries := WithVerdict(ids, rows, Requeue, now, settings);
      && Distinct(retries)
      && forall id :: id in retries <==>
           exists i | 0 <= i < |rows| :: ids[i] == id && Stalled(rows[i], now, settings)
                                         && rows[i].attempts < rows[i].maxAttempts
  {
    hide Stalled;
    if rows != [] {
      var n := |rows| - 1;
      RetriesAreRequeued(ids[..n], rows[..n], now, settings);
      var before, all := WithVerdict(ids[..n], rows[..n], Requeue, now, settings),
                         WithVerdict(ids, rows, Requeue, now, settings);
      forall id ensures id in all <==>
          exists i | 0 <= i < |rows| :: ids[i] == id && Stalled(rows[i], now, settings)
                                        && rows[i].attempts < rows[i].maxAttempts
      {
        if i :| 0 <= i < |rows| && ids[i] == id && Stalled(rows[i], now, settings)
                && rows[i].attempts < rows[i].maxAttempts {
          if i < n {
            assert ids[..n][i] == id && rows[..n][i] == rows[i];
          }
        }
      }
      assert ids[n] !in before by {
        assert forall i | 0 <= i < n :: ids[..n][i] != ids[n];
      }
    }
  }

  /** The audit row is the one that task `i` of the table gets. */
  predicate AuditFor(a: Audit, ids: seq<TaskId>, rows: seq<Task>, i: int, now: int, settings: Settings)
    requires |ids| == |rows|
  {
    0 <= i < |rows| && a in AuditsOf(Judge(rows[i], now, settings), ids[i])
  }

  lemma {:induction false} AuditsHave(ids: seq<TaskId>, rows: seq<Task>, a: Audit, now: int, settings: Settings)
    requires |ids| == |rows|
    ensures a in IngestionAudits(ids, rows, now, settings) <==> exists i :: AuditFor(a, ids, rows, i, now, settings)
  {
    hide Judge, AuditsOf;
    if rows != [] {
      var n := |rows| - 1;
      AuditsHave(ids[..n], rows[..n], a, now, settings);
      if i :| AuditFor(a, ids[..n], rows[..n], i, now, settings) {
        assert AuditFor(a, ids, rows, i, now, settings);
      }
      if i :| AuditFor(a, ids, rows, i, now, settings) && i < n {
        assert AuditFor(a, ids[..n], rows[..n], i, now, settings);
      }
      assert a in AuditsOf(Judge(rows[n], now, settings), ids[n]) <==> AuditFor(a, ids, rows, n, now, settings);
    }
  }

  lemma AuditsOfOne(v: Verdict, id: TaskId)
    ensures |AuditsOf(v, id)| <= 1 && forall i | 0 <= i < |AuditsOf(v, id)| :: AuditsOf(v, id)[i].resource == id
  {
  }

  lemma {:induction false} AuditsOnce(ids: seq<TaskId>, rows: seq<Task>, now: int, settings: Settings)
    requires |ids| == |rows| && Distinct(ids)
    ensures var audits := IngestionAudits(ids, rows, now, settings);
      forall j, k | 0 <= j < k < |audits| :: audits[j].resource != audits[k].resource
  {
    hide Judge, AuditsOf, AuditFor;
    if rows != [] {
      var n := |rows| - 1;
      var before := IngestionAudits(ids[..n], rows[..n], now, settings);
      AuditsOnce(ids[..n], rows[..n], now, settings);
      AuditsOfOne(Judge(rows[n], now, settings), ids[n]);
      forall j | 0 <= j < |before| ensures before[j].resource != ids[n] {
        AuditsHave(ids[..n], rows[..n], before[j], now, settings);
        var i :| AuditFor(before[j], ids[..n], rows[..n], i, now, settings);
        AuditForNames(before[j], ids[..n], rows[..n], i, now, settings);
        assert ids[i] != ids[n];
      }
    }
  }

  lemma AuditForNames(a: Audit, ids: seq<TaskId>, rows: seq<Task>, i: int, now: int, settings: Settings)
    requires |ids| == |rows| && AuditFor(a, ids, rows, i, now, settings)
    ensures 0 <= i < |ids| && a.resource == ids[i]
  {
  }

  /** The audit rows of a sweep name exactly the rows it changed and what it did to them, each once. */
  lemma OneAuditPerChange(ids: seq<TaskId>, rows: seq<Task>, now: int, settings: Settings)
    requires |ids| == |rows| && Distinct(ids)
    ensures var audits := IngestionAudits(ids, rows, now, settings);
      && (forall a :: a in audits <==> exists i :: AuditFor(a, ids, rows, i, now, settings))
      && (forall j, k | 0 <= j < k < |audits| :: audits[j].resource != audits[k].resource)
  {
    hide IngestionAudits, AuditFor;
    forall a ensures a in IngestionAudits(ids, rows, now, settings) <==>
        exists i :: AuditFor(a, ids, rows, i, now, settings)
    {
      AuditsHave(ids, rows, a, now, settings);
    }
    AuditsOnce(ids, rows, now, settings);
  }

  predicate JobAuditFor(a: Audit, ids: seq<TaskId>, rows: seq<Job>, action: string, i: int,
                        now: int, settings: Settings)
    requires |ids| == |rows|
  {
    0 <= i < |rows| && JobStalled(rows[i], now, settings) && a == Audit(action, ids[i])
  }

  lemma {:induction false} JobAuditsHave(ids: seq<TaskId>, rows: seq<Job>, action: string, a: Audit,
                                         now: int, settings: Settings)
    requires |ids| == |rows|
    ensures a in JobAudits(ids, rows, action, now, settings) <==>
      exists i :: JobAuditFor(a, ids, rows, action, i, now, settings)
  {
    hide JobStalled;
    if rows != [] {
      var n := |rows| - 1;
      JobAuditsHave(ids[..n], rows[..n], action, a, now, settings);
      if i :| JobAuditFor(a, ids[..n], rows[..n], action, i, now, settings) {
        assert JobAuditFor(a, ids, rows, action, i, now, settings);
      }
      if i :| JobAuditFor(a, ids, rows, action, i, now, settings) && i < n {
        assert JobAuditFor(a, ids[..n], rows[..n], action, i, now, settings);
      }
      assert JobStalled(rows[n], now, settings) && a == Audit(action, ids[n])
        <==> JobAuditFor(a, ids, rows, action, n, now, settings);
    }
  }

  lemma JobAuditForNames(a: Audit, ids: seq<TaskId>, rows: seq<Job>, action: string, i: int,
                         now: int, settings: Settings)
    requires |ids| == |rows| && JobAuditFor(a, ids, rows, action, i, now, settings)
    ensures 0 <= i < |ids| && a.resource == ids[i]
  {
  }

  lemma {:induction false} JobAuditsOnce(ids: seq<TaskId>, rows: seq<Job>, action: string, now: int, settings: Settings)
    requires |ids| == |rows| && Distinct(ids)
    ensures var audits := JobAudits(ids, rows, action, now, settings);
      forall j, k | 0 <= j < k < |audits| :: audits[j].resource != audits[k].resource
  {
    hide JobStalled, JobAuditFor;
    if rows != [] {
      var n := |rows| - 1;
      var before := JobAudits(ids[..n], rows[..n], action, now, settings);
      JobAuditsOnce(ids[..n], rows[..n], action, now, settings);
      forall j | 0 <= j < |before| ensures before[j].resource != ids[n] {
        JobAuditsHave(ids[..n], rows[..n], action, before[j], now, settings);
        var i :| JobAuditFor(before[j], ids[..n], rows[..n], action, i, now, settings);
        JobAuditForNames(before[j], ids[..n], rows[..n], action, i, now, settings);
        assert ids[i] != ids[n];
      }
    }
  }

  /** The same for the tables whose work is never repeated. */
  lemma OneAuditPerStalledJob(ids: seq<TaskId>, rows: seq<Job>, action: string, now: int, settings: Settings)
    requires |ids| == |rows| && Distinct(ids)
    ensures var audits := JobAudits(ids, rows, action, now, settings);
      && (forall a :: a in audits <==> exists i :: JobAuditFor(a, ids, rows, action, i, now, settings))
      && (forall j, k | 0 <= j < k < |audits| :: audits[j].resource != audits[k].resource)
  {
    hide JobAudits, JobAuditFor;
    forall a ensures a in JobAudits(ids, rows, action, now, settings) <==>
        exists i :: JobAuditFor(a, ids, rows, action, i, now, settings)
    {
      JobAuditsHave(ids, rows, action, a, now, settings);
    }
    JobAuditsOnce(ids, rows, action, now, settings);
  }

  // ---------------------------------------------------------------------------------------------
  // A second sweep at the same time
  // ---------------------------------------------------------------------------------------------

  function SweptRows(rows: seq<Task>, now: int, settings: Settings): (r: seq<Task>)
    ensures |r| == |rows| && forall i | 0 <= i < |r| :: r[i] == Swept(rows[i], now, settings)
  {
    seq(|rows|, i requires 0 <= i < |rows| => Swept(rows[i], now, settings))
  }

  function SweptJobs(jobs: seq<Job>, now: int, settings: Settings, note: Note): (r: seq<Job>)
    ensures |r| == |jobs| && forall i | 0 <= i < |r| :: r[i] == JobSwept(jobs[i], now, settings, note)
  {
    seq(|jobs|, i requires 0 <= i < |jobs| => JobSwept(jobs[i], now, settings, note))
  }

  /** The second sweep of the whole ingestion table: no row changes and none is dead-lettered; it asks
      for no retry and writes no audit row if the queued timeout is positive, and otherwise repeats
      exactly the retries of the first.  So it is a no-op exactly if the timeout is positive or
      nothing was requeued. */
  lemma {:induction false} SecondSweep(ids: seq<TaskId>, rows: seq<Task>, now: int, settings: Settings)
    requires |ids| == |rows|
    ensures var swept := SweptRows(rows, now, settings);
      var first := WithVerdict(ids, rows, Requeue, now, settings);
      && SweptRows(swept, now, settings) == swept
      && WithVerdict(ids, swept, DeadLetter, now, settings) == []
      && WithVerdict(ids, swept, Requeue, now, settings) == (if settings.queuedTimeout > 0 then [] else first)
      && (IngestionAudits(ids, swept, now, settings) == [] <==> settings.queuedTimeout > 0 || first == [])
  {
    hide Judge, Swept;
    var swept := SweptRows(rows, now, settings);
    forall i | 0 <= i < |rows| ensures SweptRows(swept, now, settings)[i] == swept[i] {
      SweptTwice(rows[i], now, settings);
    }
    if rows != [] {
      var n := |rows| - 1;
      SecondSweep(ids[..n], rows[..n], now, settings);
      SweptTwice(rows[n], now, settings);
      assert swept[..n] == SweptRows(rows[..n], now, settings);
    }
  }

  /** The second sweep of the other tables changes no row and writes no audit row. */
  lemma {:induction false} SecondJobSweep(ids: seq<TaskId>, jobs: seq<Job>, action: string, note: Note,
                                          now: int, settings: Settings)
    requires |ids| == |jobs|
    ensures var swept := SweptJobs(jobs, now, settings, note);
      && SweptJobs(swept, now, settings, note) == swept
      && JobAudits(ids, swept, action, now, settings) == []
  {
    var swept := SweptJobs(jobs, now, settings, note);
    if jobs != [] {
      var n := |jobs| - 1;
      SecondJobSweep(ids[..n], jobs[..n], action, note, now, settings);
      assert swept[..n] == SweptJobs(jobs[..n], now, settings, note);
      assert !JobStalled(swept[n], now, settings);
    }
  }

  // ---------------------------------------------------------------------------------------------
  // The lifecycle of an ingestion task
  // ---------------------------------------------------------------------------------------------

  /** Every committed operation on an ingestion task, with the time of its commit.  `Retry` says
      whether the document is available and, in eager mode, how the ingestion that it runs inline
      ends. */
  datatype Op =
    | Ingest(now: int, ok: bool, message: string)
    | IngestWithoutDocument(now: int)
    | Sweep(now: int, settings: Settings)
    | Retry(now: int, available: bool, inlineIngest: Option<bool>, message: string)
    | Cancel(now: int)
    | RetryDeadLetter(now: int)

  /** `process_ingestion`. */
  function Ingested(t: Task, ok: bool, message: string): Task {
    var n := t.attempts + 1;
    if ok then t.(status := Completed, attempts := n, error := "", deadLetter := false)
    else t.(status := Failed, attempts := n, error := message, deadLetter := n >= t.maxAttempts)
  }

  /** The database stamps a row that an operation changes, and only then. */
  function Written(before: Task, after: Task, now: int): Task {
    if after == before then before else after.(updatedAt := Some(now))
  }

  /** The task after an operation.  A rejected request rolls its changes back. */
  function Apply(t: Task, op: Op): Task {
    match op
    case Ingest(now, ok, message) => Written(t, Ingested(t, ok, message), now)
    case IngestWithoutDocument(now) => Written(t, t.(status := Failed, error := "Document not found"), now)
    case Sweep(now, settings) => Swept(t, now, settings)
    case Retry(now, available, inlineIngest, message) =>
      if t.status == Processing || !available then t
      else
        var queued := t.(status := Queued, deadLetter := false, error := "", nextRetryAt := None);
        Written(t, if inlineIngest.None? then queued else Ingested(queued, inlineIngest.value, message), now)
    case Cancel(now) =>
      if t.status == Queued || t.status == Processing then
        Written(t, t.(status := Cancelled, error := "Cancelled by organization administrator"), now)
      else t
    case RetryDeadLetter(now) => if t.deadLetter then Written(t, t.(deadLetter := false, attempts := 0), now) else t
  }

  function Execute(t: Task, ops: seq<Op>): Task {
    if ops == [] then t else Apply(Execute(t, ops[..|ops| - 1]), ops[|ops| - 1])
  }

  /** A dead letter is a failed task that has used up its attempts. */
  predicate DeadLetterOk(t: Task) { t.deadLetter ==> t.status == Failed && t.attempts >= t.maxAttempts }

  lemma ApplyKeeps(t: Task, op: Op)
    ensures DeadLetterOk(t) ==> DeadLetterOk(Apply(t, op))
    ensures t.status != Processing ==> Apply(t, op).status != Processing
    ensures Apply(t, op).maxAttempts == t.maxAttempts
  {
  }

  /** Across all interleavings of ingestion, sweeps, retries and cancellations. */
  lemma {:induction false} DeadLetterInvariant(t: Task, ops: seq<Op>)
    requires DeadLetterOk(t)
    ensures DeadLetterOk(Execute(t, ops))
  {
    hide Apply, DeadLetterOk;
    if ops != [] {
      DeadLetterInvariant(t, ops[..|ops| - 1]);
      ApplyKeeps(Execute(t, ops[..|ops| - 1]), ops[|ops| - 1]);
    }
  }

  /** The operations that take a dead letter back: a delivery whose ingestion succeeds, a retry of an
      available document that is queued or succeeds inline, and the administrator's reset. */
  predicate TakesBack(op: Op) {
    match op
    case Ingest(_, ok, _) => ok
    case Retry(_, available, inlineIngest, _) => available && (inlineIngest.None? || inlineIngest.value)
    case RetryDeadLetter(_) => true
    case _ => false
  }

  lemma TakenBackExactly(t: Task, op: Op)
    requires t.deadLetter && DeadLetterOk(t)
    ensures Apply(t, op).deadLetter <==> !TakesBack(op)
  {
  }

  /** A dead letter stays one throughout a run exactly if the run has none of those operations.  A
      delivery is one of them: the worker does not look at the flag, so a duplicate delivery that
      succeeds completes a dead letter without anybody asking for a retry. */
  lemma {:induction false} ExhaustedStaysOut(t: Task, ops: seq<Op>)
    requires t.deadLetter && DeadLetterOk(t)
    ensures (forall k | 0 <= k <= |ops| :: Execute(t, ops[..k]).deadLetter)
       <==> (forall i | 0 <= i < |ops| :: !TakesBack(ops[i]))
  {
    hide Apply, TakesBack, DeadLetterOk;
    if ops == [] {
      assert Execute(t, ops[..0]) == t;
    } else {
      var init := ops[..|ops| - 1];
      ExhaustedStaysOut(t, init);
      DeadLetterInvariant(t, init);
      PrefixesSplit(t, ops);
      if Execute(t, init).deadLetter { TakenBackExactly(Execute(t, init), ops[|ops| - 1]); }
    }
  }

  lemma PrefixesSplit(t: Task, ops: seq<Op>)
    requires ops != []
    ensures var n := |ops| - 1;
      var init := ops[..n];
      && ((forall k | 0 <= k <= |ops| :: Execute(t, ops[..k]).deadLetter) <==>
          (forall k | 0 <= k <= n :: Execute(t, init[..k]).deadLetter) && Execute(t, ops).deadLetter)
      && ((forall k | 0 <= k <= n :: Execute(t, init[..k]).deadLetter) ==> Execute(t, init).deadLetter)
      && ((forall i | 0 <= i < |ops| :: !TakesBack(ops[i])) <==>
          (forall i | 0 <= i < n :: !TakesBack(init[i])) && !TakesBack(ops[n]))
  {
    hide Execute, TakesBack;
    var n := |ops| - 1;
    var init := ops[..n];
    assert forall k | 0 <= k <= n :: ops[..k] == init[..k];
    assert ops[..|ops|] == ops && init[..n] == init;
    assert forall i | 0 <= i < n :: init[i] == ops[i];
  }

  /** What a request or a delivery does to a task, each on its own. */
  lemma OperationsExactly(t: Task, op: Op)
    ensures var next := Apply(t, op);
      match op
      case Ingest(_, ok, message) =>
        && next.attempts == t.attempts + 1 && next.status == (if ok then Completed else Failed)
        && (next.deadLetter <==> !ok && t.attempts + 1 >= t.maxAttempts)
        && next.error == if ok then "" else message
      case IngestWithoutDocument(_) =>
        next.status == Failed && next.attempts == t.attempts && next.deadLetter == t.deadLetter
      case Retry(_, available, inlineIngest, _) =>
        if !available || t.status == Processing then next == t
        else if inlineIngest.None? then next.status == Queued && next.attempts == t.attempts && !next.deadLetter
        else next.attempts == t.attempts + 1 && next.status == (if inlineIngest.value then Completed else Failed)
      case Cancel(_) =>
        if t.status in {Queued, Processing} then next.status == Cancelled && next.attempts == t.attempts else next == t
      case RetryDeadLetter(_) =>
        if t.deadLetter then !next.deadLetter && next.attempts == 0 && next.status == t.status else next == t
      case Sweep(_, _) => next.attempts == t.attempts
  {
    hide Stalled;
  }

  /** How often the task was delivered, counted from the last reset of a dead letter. */
  function Deliveries(t: Task, ops: seq<Op>): int {
    if ops == [] then t.attempts
    else
      var init, op := ops[..|ops| - 1], ops[|ops| - 1];
      var before := Execute(t, init);
      if op.RetryDeadLetter? && before.deadLetter then 0
      else
        Deliveries(t, init) + if op.Ingest? || (op.Retry? && op.inlineIngest.Some? && op.available
                                                && before.status != Processing) then 1 else 0
  }

  /** In every run the attempts are the deliveries, and sweeps, cancellations and queued retries are none. */
  lemma {:induction false} AttemptsCountDeliveries(t: Task, ops: seq<Op>)
    ensures Execute(t, ops).attempts == Deliveries(t, ops)
  {
    hide Apply;
    if ops != [] {
      AttemptsCountDeliveries(t, ops[..|ops| - 1]);
      OperationsExactly(Execute(t, ops[..|ops| - 1]), ops[|ops| - 1]);
    }
  }

  /** What a sweep writes when the row has changed since the sweep read it: only the columns that
      the sweep itself changed, on top of the current row. */
  function WriteBack(read: Task, current: Task, now: int, settings: Settings): Task {
    var swept := Swept(read, now, settings);
    current.(
      status := if swept.status != read.status then swept.status else current.status,
      deadLetter := if swept.deadLetter != read.deadLetter then swept.deadLetter else current.deadLetter)
  }

  lemma {:induction false} SameMaximum(t: Task, ops: seq<Op>)
    ensures Execute(t, ops).maxAttempts == t.maxAttempts
  {
    hide Apply;
    if ops != [] {
      SameMaximum(t, ops[..|ops| - 1]);
      ApplyKeeps(Execute(t, ops[..|ops| - 1]), ops[|ops| - 1]);
    }
  }

  /** The invariant needs sweeps that read and write in one piece.  When other operations are
      committed between the read and the write, it fails exactly if the sweep dead-letters a row
      that has attempts again, or requeues as a dead letter one that it read while processing. */
  lemma OverlappingSweep(read: Task, ops: seq<Op>, now: int, settings: Settings)
    requires DeadLetterOk(read)
    ensures var current := Execute(read, ops);
      DeadLetterOk(WriteBack(read, current, now, settings)) <==>
        match Judge(read, now, settings)
        case Keep => true
        case Requeue => !(current.deadLetter && read.status == Processing)
        case DeadLetter => current.attempts >= current.maxAttempts
  {
    hide Apply, Execute;
    DeadLetterInvariant(read, ops);
    SameMaximum(read, ops);
  }

  /** No committed operation leaves a task processing: the worker's status is overwritten before its
      commit. */
  lemma {:induction false} NeverCommittedAsProcessing(t: Task, ops: seq<Op>)
    requires t.status != Processing
    ensures Execute(t, ops).status != Processing
  {
    hide Apply;
    if ops != [] {
      NeverCommittedAsProcessing(t, ops[..|ops| - 1]);
      ApplyKeeps(Execute(t, ops[..|ops| - 1]), ops[|ops| - 1]);
    }
  }

  /** So for a row that a sweep can read, whatever led to it and whatever is committed in between, the
      write breaks the invariant exactly if it dead-letters a task that has attempts again. */
  lemma OverlappingSweepInRuns(t: Task, before: seq<Op>, between: seq<Op>, now: int, settings: Settings)
    requires t.status != Processing && DeadLetterOk(t)
    ensures var read := Execute(t, before);
      var current := Execute(read, between);
      DeadLetterOk(WriteBack(read, current, now, settings)) <==>
        (Judge(read, now, settings) == DeadLetter ==> current.attempts >= current.maxAttempts)
  {
    hide Execute, Judge, WriteBack, DeadLetterOk;
    NeverCommittedAsProcessing(t, before);
    DeadLetterInvariant(t, before);
    OverlappingSweep(Execute(t, before), between, now, settings);
  }

  lemma ExecuteOne(t: Task, ops: seq<Op>, op: Op)
    ensures Execute(t, []) == t && Execute(t, ops + [op]) == Apply(Execute(t, ops), op)
  {
    assert (ops + [op])[..|ops|] == ops;
  }

  const NEW_TASK := Task(Queued, 0, 3, false, 0, Some(0), None, "")
  const FAILURES := [Ingest(1, false, "unreadable"), Ingest(2, false, "unreadable"), Ingest(3, false, "unreadable")]
  const REQUEUED := Task(Queued, 3, 3, false, 0, Some(4), None, "")

  /** And it happens to a new task: three deliveries fail and a retry queues it again; a sweep reads it,
      a fourth delivery fails and makes it a dead letter, an administrator resets it, and the sweep
      then writes. */
  lemma OverlappingSweepHappens()
    ensures Execute(NEW_TASK, FAILURES + [Retry(4, true, None, "")]) == REQUEUED
    ensures var current := Execute(REQUEUED, [Ingest(100, false, "unreadable"), RetryDeadLetter(101)]);
      && DeadLetterOk(NEW_TASK)
      && !DeadLetterOk(WriteBack(REQUEUED, current, 100, Settings(60, 60)))
  {
    ThreeFailures();
    hide Execute;
    ExecuteOne(NEW_TASK, FAILURES, Retry(4, true, None, ""));
    var failed, reset := Ingest(100, false, "unreadable"), RetryDeadLetter(101);
    ExecuteOne(REQUEUED, [], failed);
    ExecuteOne(REQUEUED, [failed], reset);
    assert [] + [failed] == [failed] && [failed] + [reset] == [failed, reset];
  }

  lemma ThreeFailures()
    ensures Execute(NEW_TASK, FAILURES) == Task(Failed, 3, 3, true, 0, Some(3), None, "unreadable")
  {
    hide Execute;
    ExecuteOne(NEW_TASK, [], FAILURES[0]);
    ExecuteOne(NEW_TASK, [] + [FAILURES[0]], FAILURES[1]);
    ExecuteOne(NEW_TASK, [] + [FAILURES[0]] + [FAILURES[1]], FAILURES[2]);
    assert [] + [FAILURES[0]] + [FAILURES[1]] + [FAILURES[2]] == FAILURES;
  }

  // ---------------------------------------------------------------------------------------------
  // What the sweep makes up for
  // ---------------------------------------------------------------------------------------------

  /** These are sweeps, all of them before the queued timeout of a row that has waited since `since`. */
  predicate SweepsBefore(ops: seq<Op>, since: int, settings: Settings) {
    forall i | 0 <= i < |ops| ::
      ops[i].Sweep? && ops[i].settings == settings && ops[i].now < since + settings.queuedTimeout
  }

  lemma {:induction false} LeftAlone(t: Task, sweeps: seq<Op>, settings: Settings)
    requires t.status == Queued && SweepsBefore(sweeps, Since(t), settings)
    ensures Execute(t, sweeps) == t
  {
    if sweeps != [] {
      var n := |sweeps| - 1;
      assert forall i | 0 <= i < n :: sweeps[..n][i] == sweeps[i];
      LeftAlone(t, sweeps[..n], settings);
      assert sweeps[n].Sweep? && sweeps[n].settings == settings && sweeps[n].now < Since(t) + settings.queuedTimeout;
    }
  }

  lemma RetryQueues(t: Task, retry: Op)
    requires t.status != Processing && retry.Retry? && retry.available && retry.inlineIngest.None?
    ensures var queued := Apply(t, retry);
      && queued.status == Queued && !queued.deadLetter
      && queued.attempts == t.attempts && queued.maxAttempts == t.maxAttempts
      && Since(queued) == if queued != t then retry.now else Since(t)
  {
  }

  lemma SweptAfterTimeout(t: Task, sweep: Op, settings: Settings)
    requires t.status == Queued && sweep.Sweep? && sweep.settings == settings
    requires sweep.now >= Since(t) + settings.queuedTimeout
    ensures Judge(t, sweep.now, settings) == if t.attempts < t.maxAttempts then Requeue else DeadLetter
    ensures t.attempts >= t.maxAttempts ==> Apply(t, sweep).deadLetter
  {
  }

  /** A manual retry commits the queued task before it adds the outbox row, so the row may never be
      written and nothing delivers the task.  The sweep makes up for that: whatever led to the task,
      sweeps before the queued timeout leave the row alone, and the first one after it asks for the
      delivery if the task has an attempt left, and otherwise makes it a dead letter.  The time
      counts from the retry if the retry changed the row, and else from the row's last change. */
  lemma RetryWithoutOutboxRow(t: Task, before: seq<Op>, retry: Op, sweeps: seq<Op>, sweep: Op, settings: Settings)
    requires t.status != Processing
    requires retry.Retry? && retry.available && retry.inlineIngest.None?
    requires SweepsBefore(sweeps, Since(Execute(t, before + [retry])), settings)
    requires sweep.Sweep? && sweep.settings == settings
    requires sweep.now >= Since(Execute(t, before + [retry])) + settings.queuedTimeout
    ensures var last, queued := Execute(t, before), Execute(t, before + [retry]);
      && queued.status == Queued && !queued.deadLetter && queued.attempts == last.attempts
      && Since(queued) == (if queued != last then retry.now else Since(last))
      && Execute(queued, sweeps) == queued
      && Judge(queued, sweep.now, settings) == (if last.attempts < last.maxAttempts then Requeue else DeadLetter)
      && (last.attempts >= last.maxAttempts ==> Execute(queued, sweeps + [sweep]).deadLetter)
  {
    hide *;
    NeverCommittedAsProcessing(t, before);
    ExecuteOne(t, before, retry);
    var queued := Execute(t, before + [retry]);
    RetryQueues(Execute(t, before), retry);
    LeftAlone(queued, sweeps, settings);
    ExecuteOne(queued, sweeps, sweep);
    SweptAfterTimeout(queued, sweep, settings);
  }

  /** The operation at place `i` is the last one of the run that changed the task. */
  predicate LastChange(t: Task, ops: seq<Op>, i: int) {
    && 0 <= i < |ops|
    && Execute(t, ops[..i + 1]) != Execute(t, ops[..i])
    && forall k | i < k <= |ops| :: Execute(t, ops[..k]) == Execute(t, ops)
  }

  lemma StampOfAChange(t: Task, op: Op)
    ensures Apply(t, op) == t || Apply(t, op).updatedAt == Some(op.now)
  {
  }

  lemma LastChangeAtEnd(t: Task, ops: seq<Op>)
    requires ops != [] && Execute(t, ops) != Execute(t, ops[..|ops| - 1])
    ensures LastChange(t, ops, |ops| - 1)
  {
    hide Apply;
    assert ops[..|ops|] == ops;
  }

  lemma LastChangeBefore(t: Task, ops: seq<Op>, i: int)
    requires ops != [] && Execute(t, ops) == Execute(t, ops[..|ops| - 1]) && LastChange(t, ops[..|ops| - 1], i)
    ensures LastChange(t, ops, i)
  {
    hide Execute;
    var n := |ops| - 1;
    var init := ops[..n];
    assert init[..i] == ops[..i] && init[..i + 1] == ops[..i + 1];
    forall k | i < k <= |ops| ensures Execute(t, ops[..k]) == Execute(t, ops) {
      if k <= n { assert ops[..k] == init[..k]; } else { assert ops[..k] == ops; }
    }
  }

  /** The stamp of a row is the time of the last operation that changed it. */
  lemma {:induction false} StampIsLastChange(t: Task, ops: seq<Op>)
    ensures Execute(t, ops) == t ||
      exists i | 0 <= i < |ops| :: LastChange(t, ops, i) && Execute(t, ops).updatedAt == Some(ops[i].now)
  {
    hide Apply, LastChange;
    if ops != [] {
      var n := |ops| - 1;
      var init := ops[..n];
      StampIsLastChange(t, init);
      if Execute(t, ops) != Execute(t, init) {
        LastChangeAtEnd(t, ops);
        StampOfAChange(Execute(t, init), ops[n]);
      } else if Execute(t, ops) != t {
        var i :| 0 <= i < n && LastChange(t, init, i) && Execute(t, init).updatedAt == Some(init[i].now);
        LastChangeBefore(t, ops, i);
      }
    }
  }

  lemma NotStalled(t: Task, now: int, settings: Settings)
    requires Judge(t, now, settings) == Keep && (t.status == Queued || t.status == Processing)
    ensures Since(t) + (if t.status == Queued then settings.queuedTimeout else settings.runningTimeout) > now
  {
  }

  /** Nothing waits unseen: after every run that ends with a sweep under positive timeouts, a task that
      is still in progress was last changed by an operation that is younger than the timeout of its
      status, unless the whole run left it alone and it is that young itself. */
  lemma NothingWaitsUnseen(t: Task, ops: seq<Op>, now: int, settings: Settings)
    requires settings.queuedTimeout > 0 && settings.runningTimeout > 0
    ensures var run := ops + [Sweep(now, settings)];
      var end := Execute(t, run);
      end.status == Queued || end.status == Processing ==>
        var timeout := if end.status == Queued then settings.queuedTimeout else settings.runningTimeout;
        || (end == t && Since(t) + timeout > now)
        || exists i | 0 <= i < |run| :: LastChange(t, run, i) && run[i].now + timeout > now
  {
    hide Execute, Swept, Judge, LastChange;
    var run := ops + [Sweep(now, settings)];
    ExecuteOne(t, ops, Sweep(now, settings));
    StampIsLastChange(t, run);
    SweptTwice(Execute(t, ops), now, settings);
    var end := Execute(t, run);
    if end.status == Queued || end.status == Processing { NotStalled(end, now, settings); }
  }
}
