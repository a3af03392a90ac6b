/** The transactional outbox: rows committed together with the work they announce, claimed under a
    lease by any number of dispatchers, sent to the broker, and finished or put back. */
module Outbox {
  import opened Wrappers
  import opened Sequences
  import opened Numbers

  type RowId = string
  type RunId = string
  type DispatcherId = nat

  /** Times are whole microseconds. */
  const SECOND: int := 1_000_000
  const LEASE: int := 30 * SECOND
  const MAX_BACKOFF: int := 60 * SECOND
  const BATCH: nat := 50

  datatype RowStatus = Pending | Processing | Completed

  datatype Row = Row(
    eventType: string,
    aggregateType: string,
    aggregateId: string,
    createdAt: int,
    status: RowStatus,
    attempts: nat,
    availableAt: int,
    processedAt: Option<int>,
    error: string)

  function NewRow(eventType: string, aggregateType: string, aggregateId: string, now: int): Row {
    Row(eventType, aggregateType, aggregateId, now, Pending, 0, now, None, "")
  }

  function ClaimRow(row: Row, now: int): Row {
    row.(status := Processing, attempts := row.attempts + 1, availableAt := now + LEASE)
  }

  /** `finish`.  The code tests the error text for truth, so an empty text counts as no error. */
  function FinishRow(row: Row, now: int, error: string): Row {
    if error == "" then row.(status := Completed, error := "", processedAt := Some(now))
    else row.(status := Pending, error := error, processedAt := None,
              availableAt := now + Min(5 * SECOND * Max(row.attempts, 1), MAX_BACKOFF))
  }

  /** The task and the aggregate type that an event type is dispatched to. */
  function TaskFor(eventType: string): Option<(string, string)> {
    match eventType
    case "analysis.requested" => Some(("supplymind.analysis.execute", "analysis_run"))
    case "document.ingestion_requested" => Some(("supplymind.documents.ingest", "ingestion_task"))
    case "report.pdf_export_requested" => Some(("supplymind.reports.export_pdf", "report_export"))
    case _ => None
  }

  /** What stops a row before the broker is asked; "" when nothing does. */
  function Rejection(eventType: string, aggregateType: string): string {
    var task := TaskFor(eventType);
    if task.None? then "'" + eventType + "'"
    else if aggregateType != task.value.1 then "Outbox aggregate type does not match " + eventType
    else ""
  }

  /** The kinds of rows that the writers commit. */
  predicate Known(eventType: string, aggregateType: string) {
    (eventType, aggregateType) in {
      ("analysis.requested", "analysis_run"),
      ("document.ingestion_requested", "ingestion_task"),
      ("report.pdf_export_requested", "report_export")}
  }

  /** A row passes the test exactly if it is one of the three kinds that the writers commit; this is the
      task that each of them goes to. */
  lemma RoutedExactly(eventType: string, aggregateType: string)
    ensures Rejection(eventType, aggregateType) == "" <==> Known(eventType, aggregateType)
    ensures Rejection(eventType, aggregateType) == "" ==>
      TaskFor(eventType).Some? &&
      (eventType, TaskFor(eventType).value.0) in {("analysis.requested", "supplymind.analysis.execute"),
                                                  ("document.ingestion_requested", "supplymind.documents.ingest"),
                                                  ("report.pdf_export_requested", "supplymind.reports.export_pdf")}
  {
  }

  /** Without an error text a row is completed at once and for good; with one it is pending again after
      five seconds for each attempt, at most a minute, and keeps the text. */
  lemma FinishExactly(row: Row, now: int, error: string)
    ensures var next := FinishRow(row, now, error);
      && (error == "" ==>
            next.status == Completed && next.processedAt == Some(now) && next.availableAt == row.availableAt)
      && (error != "" ==>
            && next.status == Pending && next.processedAt == None
            && next.availableAt == now + 1_000_000
                 * (if row.attempts <= 1 then 5 else if row.attempts < 12 then 5 * row.attempts else 60))
      && next.error == error && next.attempts == row.attempts
  {
  }

  function Truncate(s: string): (r: string)
    ensures r <= s && (|s| <= 500 ==> r == s) && (|s| > 500 ==> |r| == 500)
  {
    if |s| <= 500 then s else s[..500]
  }

  // ---------------------------------------------------------------------------------------------
  // The row objects that a dispatcher updates
  // ---------------------------------------------------------------------------------------------

  class OutboxEvent {
    const eventType: string
    const aggregateType: string
    const aggregateId: string
    const createdAt: int
    var status: RowStatus
    var attempts: nat
    var availableAt: int
    var processedAt: Option<int>
    var error: string

    ghost function View(): Row
      reads this
    {
      Row(eventType, aggregateType, aggregateId, createdAt, status, attempts, availableAt, processedAt, error)
    }

    constructor (eventType: string, aggregateType: string, aggregateId: string, now: int)
      ensures View() == NewRow(eventType, aggregateType, aggregateId, now)
    {
      this.eventType, this.aggregateType, this.aggregateId := eventType, aggregateType, aggregateId;
      createdAt, status, attempts, availableAt := now, Pending, 0, now;
      processedAt, error := None, "";
    }

    method Finish(failure: string, now: int)
      modifies this
      ensures View() == FinishRow(old(View()), now, failure)
    {
      status := if failure != "" then Pending else Completed;
      error := failure;
      processedAt := if failure == "" then Some(now) else None;
      if failure != "" {
        availableAt := now + Min(5 * SECOND * Max(attempts, 1), MAX_BACKOFF);
      }
    }
  }

  /** `claim`, on the rows its query returned. */
  method ClaimRows(events: seq<OutboxEvent>, now: int) returns (claimed: seq<OutboxEvent>)
    requires Distinct(events)
    modifies events
    ensures claimed == events
    ensures forall i | 0 <= i < |events| :: events[i].View() == ClaimRow(old(events[i].View()), now)
    ensures forall i | 0 <= i < |events| ::
      events[i].status == Processing && events[i].attempts == old(events[i].attempts) + 1
      && events[i].availableAt == now + 30_000_000
  {
    claimed := [];
    var i := 0;
    while i < |events|
      invariant 0 <= i <= |events|
      invariant claimed == events[..i]
      invariant forall k | 0 <= k < i :: events[k].View() == ClaimRow(old(events[k].View()), now)
      invariant forall k | i <= k < |events| :: events[k].View() == old(events[k].View())
    {
      var event := events[i];
      event.status := Processing;
      event.attempts := event.attempts + 1;
      event.availableAt := now + LEASE;
      claimed := claimed + [event];
      i := i + 1;
    }
  }

  /** The error text a row is finished with, given the broker's answer for it. */
  function Verdict(row: Row, answer: Result<string, string>): string {
    var rejection := Rejection(row.eventType, row.aggregateType);
    if rejection != "" then Truncate(rejection)
    else match answer case Success(_) => "" case Failure(message) => Truncate(message)
  }

  /** The text says what went wrong, in at most 500 characters; it is empty exactly for a row of one of
      the three kinds that the broker accepts or turns down without a word. */
  lemma VerdictExactly(row: Row, answer: Result<string, string>)
    ensures var v := Verdict(row, answer);
      && |v| <= 500
      && (v == "" <==>
            && Known(row.eventType, row.aggregateType)
            && (answer.Success? || answer.error == ""))
      && (Rejection(row.eventType, row.aggregateType) == "" && answer.Failure? ==>
            v <= answer.error && (|answer.error| <= 500 ==> v == answer.error))
  {
    hide TaskFor, Rejection;
    RoutedExactly(row.eventType, row.aggregateType);
  }

  /** A message that the broker has accepted: the place of its row among the claimed ones, the task it
      went to, and the argument of the task. */
  datatype Delivery = Delivery(position: nat, task: string, argument: string)

  /** The message that a row of one of the three kinds is sent as. */
  predicate DeliveryOf(m: Delivery, row: Row) {
    && m.argument == row.aggregateId
    && (row.eventType, row.aggregateType, m.task) in {
         ("analysis.requested", "analysis_run", "supplymind.analysis.execute"),
         ("document.ingestion_requested", "ingestion_task", "supplymind.documents.ingest"),
         ("report.pdf_export_requested", "report_export", "supplymind.reports.export_pdf")}
  }

  lemma TaskIsDelivery(row: Row, m: Delivery)
    requires Rejection(row.eventType, row.aggregateType) == ""
    requires m.task == TaskFor(row.eventType).value.0 && m.argument == row.aggregateId
    ensures DeliveryOf(m, row)
  {
  }

  /** The body of the loop: a row whose types do not fit is not sent. */
  method DispatchRow(event: OutboxEvent, answer: Result<string, string>, position: nat, now: int)
    returns (sent: seq<Delivery>)
    modifies event
    ensures event.View() == FinishRow(old(event.View()), now, Verdict(old(event.View()), answer))
    ensures |sent| <= 1 && (sent != [] <==>
      Known(event.eventType, event.aggregateType)
      && answer.Success?)
    ensures sent != [] ==>
      sent[0].position == position && DeliveryOf(sent[0], old(event.View())) && event.status == Completed
  {
    hide Truncate, TaskFor, Rejection, DeliveryOf;
    RoutedExactly(event.eventType, event.aggregateType);
    var rejection := Rejection(event.eventType, event.aggregateType);
    if rejection != "" {
      event.Finish(Truncate(rejection), now);
      return [];
    }
    var message := Delivery(position, TaskFor(event.eventType).value.0, event.aggregateId);
    TaskIsDelivery(event.View(), message);
    match answer
    case Success(_) =>
      event.Finish("", now);
      return [message];
    case Failure(text) =>
      event.Finish(Truncate(text), now);
      return [];
  }

  /** The row is of one of the three kinds, and the broker accepts it. */
  predicate Accepted(row: Row, answer: Result<string, string>) {
    && Known(row.eventType, row.aggregateType)
    && answer.Success?
  }

  ghost function Views(events: seq<OutboxEvent>): (r: seq<Row>)
    reads events
    ensures |r| == |events| && forall i | 0 <= i < |events| :: r[i] == events[i].View()
  {
    seq(|events|, i requires 0 <= i < |events| reads events => events[i].View())
  }

  /** Of the first `n` rows exactly the accepted ones were sent, in order and once each, to the task of
      their kind. */
  ghost predicate SentRight(sent: seq<Delivery>, rows: seq<Row>, broker: nat -> Result<string, string>, n: nat)
    requires n <= |rows|
  {
    && (forall k | 0 <= k < |sent| ::
          && sent[k].position < n
          && Accepted(rows[sent[k].position], broker(sent[k].position))
          && DeliveryOf(sent[k], rows[sent[k].position]))
    && (forall i | 0 <= i < n && Accepted(rows[i], broker(i)) :: exists k :: 0 <= k < |sent| && sent[k].position == i)
    && (forall j, k | 0 <= j < k < |sent| :: sent[j].position < sent[k].position)
  }

  lemma SentRightStep(sent: seq<Delivery>, more: seq<Delivery>, rows: seq<Row>,
                      broker: nat -> Result<string, string>, n: nat)
    requires n < |rows| && SentRight(sent, rows, broker, n)
    requires |more| <= 1 && (more != [] <==> Accepted(rows[n], broker(n)))
    requires more != [] ==> more[0].position == n && DeliveryOf(more[0], rows[n])
    ensures SentRight(sent + more, rows, broker, n + 1)
  {
    hide Accepted, DeliveryOf;
    var all := sent + more;
    forall i | 0 <= i < n + 1 && Accepted(rows[i], broker(i))
      ensures exists k :: 0 <= k < |all| && all[k].position == i
    {
      if i < n {
        var k :| 0 <= k < |sent| && sent[k].position == i;
        assert all[k] == sent[k];
      } else {
        assert all[|sent|] == more[0];
      }
    }
  }

  lemma NothingSentRight(rows: seq<Row>, broker: nat -> Result<string, string>)
    ensures SentRight([], rows, broker, 0)
  {
  }

  lemma AcceptedIsCompleted(row: Row, answer: Result<string, string>, now: int)
    requires Accepted(row, answer)
    ensures FinishRow(row, now, Verdict(row, answer)).status == Completed
  {
    VerdictExactly(row, answer);
  }

  /** The loop of `dispatch_outbox`: each claimed row is sent at most once, in order, to the task of
      its kind, and finished with the outcome of its own send; what was sent is completed.  `broker`
      answers per position and `clock` is the time then. */
  method DispatchRows(claimed: seq<OutboxEvent>, broker: nat -> Result<string, string>, clock: nat -> int)
    returns (sent: seq<Delivery>)
    requires Distinct(claimed)
    modifies claimed
    ensures forall i | 0 <= i < |claimed| ::
      claimed[i].View() == FinishRow(old(claimed[i].View()), clock(i), Verdict(old(claimed[i].View()), broker(i)))
    ensures SentRight(sent, old(Views(claimed)), broker, |claimed|)
    ensures forall k | 0 <= k < |sent| :: sent[k].position < |claimed| && claimed[sent[k].position].status == Completed
  {
    hide FinishRow, Verdict, Rejection, DeliveryOf, Known, SentRight;
    sent := [];
    ghost var rows := Views(claimed);
    NothingSentRight(rows, broker);
    var i := 0;
    while i < |claimed|
      invariant 0 <= i <= |claimed|
      invariant forall k | 0 <= k < i :: claimed[k].View() == FinishRow(rows[k], clock(k), Verdict(rows[k], broker(k)))
      invariant forall k | i <= k < |claimed| :: claimed[k].View() == rows[k]
      invariant SentRight(sent, rows, broker, i)
    {
      var more := DispatchRow(claimed[i], broker(i), i, clock(i));
      SentRightStep(sent, more, rows, broker, i);
      sent := sent + more;
      i := i + 1;
    }
    SentCompleted(sent, rows, broker, clock, i);
  }

  lemma SentCompleted(sent: seq<Delivery>, rows: seq<Row>, broker: nat -> Result<string, string>,
                      clock: nat -> int, n: nat)
    requires n <= |rows| && SentRight(sent, rows, broker, n)
    ensures forall k | 0 <= k < |sent| ::
      var i := sent[k].position;
      i < n && FinishRow(rows[i], clock(i), Verdict(rows[i], broker(i))).status == Completed
  {
    hide FinishRow, Verdict, Accepted, DeliveryOf;
    forall k | 0 <= k < |sent|
      ensures var i := sent[k].position;
        i < n && FinishRow(rows[i], clock(i), Verdict(rows[i], broker(i))).status == Completed
    {
      AcceptedIsCompleted(rows[sent[k].position], broker(sent[k].position), clock(sent[k].position));
    }
  }

  // ---------------------------------------------------------------------------------------------
  // All dispatchers, the clock and the writers as one system
  // ---------------------------------------------------------------------------------------------

  /** One row in a dispatcher's batch.  The ticket is the row's attempt number at the claim. */
  datatype Claim = Claim(row: RowId, ticket: nat, leaseEnd: int)

  /** How far a dispatcher is with the first row of its batch. */
  datatype Phase = ToSend | Sent | Failed(message: string)

  datatype Dispatcher = Dispatcher(batch: seq<Claim>, phase: Phase)

  /** `runs` maps each queued analysis run to the outbox row committed with it; `sent` records the
      claims whose message has reached the broker. */
  datatype System = System(
    clock: int,
    rows: map<RowId, Row>,
    runs: map<RunId, RowId>,
    live: map<DispatcherId, Dispatcher>,
    sent: set<(RowId, nat)>)

  datatype Step =
    | QueueAnalysis(run: RunId, id: RowId)
    | Enqueue(id: RowId, eventType: string, aggregateType: string, aggregateId: string)
    | ClaimBatch(d: DispatcherId, ids: seq<RowId>)
    | SendOk(d: DispatcherId)
    | SendFails(d: DispatcherId, message: string)
    | Finish(d: DispatcherId)
    | FinishBreaks(d: DispatcherId, message: string)
    | Crash(d: DispatcherId)
    | Tick(dt: nat)

  predicate Claimable(s: System, id: RowId) {
    id in s.rows && s.rows[id].status != Completed && s.rows[id].availableAt <= s.clock
  }

  /** `ids` answers the query of `claim`: the oldest claimable rows, at most fifty. */
  ghost predicate Answers(s: System, ids: seq<RowId>) {
    && Distinct(ids) && |ids| <= BATCH
    && (forall i | 0 <= i < |ids| :: Claimable(s, ids[i]))
    && (forall id | Claimable(s, id) && id !in ids ::
          |ids| == BATCH && forall i | 0 <= i < |ids| :: s.rows[ids[i]].createdAt <= s.rows[id].createdAt)
  }

  predicate AtWork(s: System, d: DispatcherId) { d in s.live && s.live[d].batch != [] }

  predicate InPhase(s: System, d: DispatcherId, p: Phase) { AtWork(s, d) && s.live[d].phase == p }

  function Head(s: System, d: DispatcherId): Claim
    requires AtWork(s, d)
  {
    s.live[d].batch[0]
  }

  ghost predicate Enabled(s: System, step: Step) {
    match step
    case QueueAnalysis(run, id) => run !in s.runs && id !in s.rows
    case Enqueue(id, _, _, _) => id !in s.rows
    case ClaimBatch(d, ids) => d !in s.live && Answers(s, ids)
    case SendOk(d) =>
      InPhase(s, d, ToSend) && Head(s, d).row in s.rows
      && Rejection(s.rows[Head(s, d).row].eventType, s.rows[Head(s, d).row].aggregateType) == ""
    case SendFails(d, message) =>
      InPhase(s, d, ToSend) && Head(s, d).row in s.rows
      && (Rejection(s.rows[Head(s, d).row].eventType, s.rows[Head(s, d).row].aggregateType) != "" ==>
            message == Truncate(Rejection(s.rows[Head(s, d).row].eventType, s.rows[Head(s, d).row].aggregateType)))
    case Finish(d) => AtWork(s, d) && s.live[d].phase != ToSend && Head(s, d).row in s.rows
    case FinishBreaks(d, _) => AtWork(s, d) && s.live[d].phase != ToSend
    case Crash(d) => d in s.live
    case Tick(_) => true
  }

  function Message(p: Phase): string { if p.Failed? then p.message else "" }

  function SetPhase(s: System, d: DispatcherId, p: Phase): System
    requires d in s.live
  {
    s.(live := s.live[d := s.live[d].(phase := p)])
  }

  function Next(s: System, step: Step): System
    requires Enabled(s, step)
  {
    match step
    case QueueAnalysis(run, id) =>
      s.(runs := s.runs[run := id],
         rows := s.rows[id := NewRow("analysis.requested", "analysis_run", run, s.clock)])
    case Enqueue(id, eventType, aggregateType, aggregateId) =>
      s.(rows := s.rows[id := NewRow(eventType, aggregateType, aggregateId, s.clock)])
    case ClaimBatch(d, ids) =>
      s.(rows := map id | id in s.rows :: if id in ids then ClaimRow(s.rows[id], s.clock) else s.rows[id],
         live := s.live[d := Dispatcher(Batch(s, ids), ToSend)])
    case SendOk(d) => SetPhase(s, d, Sent).(sent := s.sent + {(Head(s, d).row, Head(s, d).ticket)})
    case SendFails(d, message) => SetPhase(s, d, Failed(message))
    case Finish(d) =>
      var row, rest := Head(s, d).row, s.live[d].batch[1..];
      s.(rows := s.rows[row := FinishRow(s.rows[row], s.clock, Message(s.live[d].phase))],
         live := s.live[d := Dispatcher(rest, ToSend)])
    case FinishBreaks(d, message) =>
      if s.live[d].phase == Sent then SetPhase(s, d, Failed(message)) else s.(live := s.live - {d})
    case Crash(d) => s.(live := s.live - {d})
    case Tick(dt) => s.(clock := s.clock + dt)
  }

  function Batch(s: System, ids: seq<RowId>): (batch: seq<Claim>)
    requires forall i | 0 <= i < |ids| :: ids[i] in s.rows
    ensures |batch| == |ids|
  {
    seq(|ids|, i requires 0 <= i < |ids| => Claim(ids[i], s.rows[ids[i]].attempts + 1, s.clock + LEASE))
  }

  const START: System := System(0, map[], map[], map[], {})

  ghost predicate Steps(states: seq<System>, steps: seq<Step>) {
    && |states| == |steps| + 1
    && forall i | 0 <= i < |steps| :: Enabled(states[i], steps[i]) && states[i + 1] == Next(states[i], steps[i])
  }

  ghost predicate Run(states: seq<System>, steps: seq<Step>) {
    Steps(states, steps) && states[0] == START
  }

  function Last(states: seq<System>): System
    requires states != []
  {
    states[|states| - 1]
  }

  lemma RunPrefix(states: seq<System>, steps: seq<Step>)
    requires Run(states, steps) && steps != []
    ensures Run(states[..|steps|], steps[..|steps| - 1])
    ensures Enabled(Last(states[..|steps|]), steps[|steps| - 1])
    ensures Last(states) == Next(Last(states[..|steps|]), steps[|steps| - 1])
  {
    hide Enabled, Next;
  }

  // ---------------------------------------------------------------------------------------------
  // What every step keeps
  // ---------------------------------------------------------------------------------------------

  predicate Live(s: System, d: DispatcherId, i: int) { d in s.live && 0 <= i < |s.live[d].batch| }

  function At(s: System, d: DispatcherId, i: int): Claim
    requires Live(s, d, i)
  {
    s.live[d].batch[i]
  }

  predicate SameTicket(a: Claim, b: Claim) { a.row == b.row && a.ticket == b.ticket }

  /** Not yet sent: every claim of a batch except a first one that has been tried. */
  predicate Unsent(s: System, d: DispatcherId, i: int) {
    Live(s, d, i) && (i > 0 || s.live[d].phase == ToSend)
  }

  /** A row that is not completed can be claimed again within a minute. */
  predicate Returns(s: System, row: Row) {
    row.status != Completed ==> row.availableAt <= s.clock + MAX_BACKOFF
  }

  predicate Announces(s: System, run: RunId) {
    run in s.runs && s.runs[run] in s.rows
    && s.rows[s.runs[run]].aggregateId == run
    && s.rows[s.runs[run]].eventType == "analysis.requested"
    && s.rows[s.runs[run]].aggregateType == "analysis_run"
  }

  predicate Ticketed(s: System, id: RowId, ticket: nat) {
    id in s.rows && 1 <= ticket <= s.rows[id].attempts
  }

  ghost predicate Consistent(s: System) {
    && (forall id | id in s.rows :: Returns(s, s.rows[id]))
    && (forall run | run in s.runs :: Announces(s, run))
    && (forall d, i | Live(s, d, i) :: Ticketed(s, At(s, d, i).row, At(s, d, i).ticket))
    && (forall id, t | (id, t) in s.sent :: Ticketed(s, id, t))
  }

  /** Each claim has its own ticket, and an unsent claim's ticket has not been sent. */
  ghost predicate Single(s: System) {
    && (forall d, i, e, j | Live(s, d, i) && Live(s, e, j) && SameTicket(At(s, d, i), At(s, e, j)) ::
          d == e && i == j)
    && (forall d, i | Unsent(s, d, i) :: (At(s, d, i).row, At(s, d, i).ticket) !in s.sent)
  }

  /** The backoff is at most a minute. */
  lemma FinishReturns(s: System, row: Row, error: string)
    ensures Returns(s, FinishRow(row, s.clock, error))
  {
  }

  /** Steps that claim nothing: batches only lose claims and attempts stay. */
  lemma KeepConsistent(s: System, next: System)
    requires Consistent(s)
    requires forall id | id in s.rows :: id in next.rows && next.rows[id].attempts == s.rows[id].attempts
    requires forall id | id in next.rows :: Returns(next, next.rows[id])
    requires forall run | run in next.runs :: Announces(next, run)
    requires forall d, i | Live(next, d, i) :: exists j :: Live(s, d, j) && At(s, d, j) == At(next, d, i)
    requires forall id, t | (id, t) in next.sent ::
      (id, t) in s.sent || exists d, i :: Live(s, d, i) && At(s, d, i).row == id && At(s, d, i).ticket == t
    ensures Consistent(next)
  {
    hide Announces, Returns;
    forall d, i | Live(next, d, i) ensures Ticketed(next, At(next, d, i).row, At(next, d, i).ticket) {
      var j :| Live(s, d, j) && At(s, d, j) == At(next, d, i);
      assert Ticketed(s, At(s, d, j).row, At(s, d, j).ticket);
    }
    forall id, t | (id, t) in next.sent ensures Ticketed(next, id, t) {
      if (id, t) !in s.sent {
        var d, i :| Live(s, d, i) && At(s, d, i).row == id && At(s, d, i).ticket == t;
        assert Ticketed(s, At(s, d, i).row, At(s, d, i).ticket);
      } else {
        assert Ticketed(s, id, t);
      }
    }
  }

  /** What a step that is not a claim does to the batches and to the record of sends. */
  lemma NoNewClaims(s: System, step: Step)
    requires Enabled(s, step) && !step.ClaimBatch?
    ensures forall d, i | Live(Next(s, step), d, i) ::
      exists j :: Live(s, d, j) && At(s, d, j) == At(Next(s, step), d, i)
    ensures forall id, t | (id, t) in Next(s, step).sent ::
      (id, t) in s.sent || exists d, i :: Live(s, d, i) && At(s, d, i).row == id && At(s, d, i).ticket == t
  {
    hide Answers, FinishRow, NewRow;
    var next := Next(s, step);
    forall d, i | Live(next, d, i) ensures exists j :: Live(s, d, j) && At(s, d, j) == At(next, d, i) {
      if step.Finish? && d == step.d {
        FinishQueue(s, d);
        assert Live(s, d, i + 1);
      } else {
        assert Live(s, d, i);
      }
    }
    if step.SendOk? {
      assert Live(s, step.d, 0) && At(s, step.d, 0) == Head(s, step.d);
    }
  }

  lemma RowsReturn(s: System, step: Step)
    requires Consistent(s) && Enabled(s, step) && !step.ClaimBatch?
    ensures forall id | id in s.rows ::
      id in Next(s, step).rows && Next(s, step).rows[id].attempts == s.rows[id].attempts
    ensures forall id | id in Next(s, step).rows :: Returns(Next(s, step), Next(s, step).rows[id])
  {
    hide Answers, FinishRow, Announces;
    if step.Finish? {
      var row, error := Head(s, step.d).row, Message(s.live[step.d].phase);
      FinishReturns(s, s.rows[row], error);
      FinishKeeps(s.rows[row], s.clock, error);
    }
  }

  lemma NextConsistent(s: System, step: Step)
    requires Consistent(s) && Enabled(s, step)
    ensures Consistent(Next(s, step))
  {
    var next := Next(s, step);
    hide Announces, Enabled, Next, Consistent, Returns;
    forall run | run in next.runs ensures Announces(next, run) { AnnouncesNext(s, step, run); }
    if step.ClaimBatch? {
      AnnouncesKept(s, step);
      ClaimConsistent(s, step.d, step.ids);
    } else {
      NoNewClaims(s, step);
      RowsReturn(s, step);
      KeepConsistent(s, next);
    }
  }

  lemma AnnouncesKept(s: System, step: Step)
    requires Enabled(s, step) && step.ClaimBatch?
    ensures Next(s, step).runs == s.runs
  {
  }

  lemma FinishKeeps(row: Row, now: int, error: string)
    ensures FinishRow(row, now, error).attempts == row.attempts
    ensures FinishRow(row, now, error).eventType == row.eventType
    ensures FinishRow(row, now, error).aggregateType == row.aggregateType
    ensures FinishRow(row, now, error).aggregateId == row.aggregateId
  {
  }

  /** Finishing drops the first claim of the batch and moves the others up. */
  lemma FinishQueue(s: System, d: DispatcherId)
    requires Enabled(s, Finish(d))
    ensures forall e, i | Live(Next(s, Finish(d)), e, i) ::
      && Live(s, e, if e == d then i + 1 else i)
      && At(Next(s, Finish(d)), e, i) == At(s, e, if e == d then i + 1 else i)
  {
    hide FinishRow;
  }

  lemma AnnouncesNext(s: System, step: Step, run: RunId)
    requires Consistent(s) && Enabled(s, step) && run in Next(s, step).runs
    ensures Announces(Next(s, step), run)
  {
    hide Answers, FinishRow;
    if step.Finish? {
      var row := Head(s, step.d).row;
      FinishKeeps(s.rows[row], s.clock, Message(s.live[step.d].phase));
    }
    if run in s.runs {
      assert Announces(s, run);
    }
  }

  /** The claims after a claim step: the old ones and the new batch. */
  lemma ClaimQueue(s: System, d: DispatcherId, ids: seq<RowId>)
    requires Enabled(s, ClaimBatch(d, ids))
    ensures forall e, i | Live(Next(s, ClaimBatch(d, ids)), e, i) ::
      if e == d then
        i < |ids| && ids[i] in s.rows
        && At(Next(s, ClaimBatch(d, ids)), e, i) == Claim(ids[i], s.rows[ids[i]].attempts + 1, s.clock + LEASE)
      else Live(s, e, i) && At(Next(s, ClaimBatch(d, ids)), e, i) == At(s, e, i)
  {
  }

  lemma ClaimConsistent(s: System, d: DispatcherId, ids: seq<RowId>)
    requires Consistent(s) && Enabled(s, ClaimBatch(d, ids))
    requires forall run | run in s.runs :: Announces(Next(s, ClaimBatch(d, ids)), run)
    ensures Consistent(Next(s, ClaimBatch(d, ids)))
  {
    hide Answers, Announces, Enabled;
    var next := Next(s, ClaimBatch(d, ids));
    ClaimQueue(s, d, ids);
    forall e, i | Live(next, e, i) ensures Ticketed(next, At(next, e, i).row, At(next, e, i).ticket) {
      if e == d {
        assert ids[i] in ids;
      } else {
        assert Ticketed(s, At(s, e, i).row, At(s, e, i).ticket);
      }
    }
  }

  lemma NextSingle(s: System, step: Step)
    requires Consistent(s) && Single(s) && Enabled(s, step)
    ensures Single(Next(s, step))
  {
    hide Answers, FinishRow, Announces, Returns, NewRow, ClaimRow;
    var next := Next(s, step);
    match step {
      case ClaimBatch(d, ids) => ClaimSingle(s, d, ids);
      case Finish(d) =>
        FinishQueue(s, d);
        forall e, i | Unsent(next, e, i) ensures Unsent(s, e, if e == d then i + 1 else i) {}
      case SendOk(d) => SendSingle(s, d);
      case FinishBreaks(d, message) => ShrinkSingle(s, next);
      case Crash(d) => ShrinkSingle(s, next);
      case SendFails(d, message) => ShrinkSingle(s, next);
      case QueueAnalysis(run, id) => ShrinkSingle(s, next);
      case Enqueue(id, _, _, _) => ShrinkSingle(s, next);
      case Tick(dt) => ShrinkSingle(s, next);
    }
  }

  lemma ShrinkSingle(s: System, next: System)
    requires Single(s) && next.sent == s.sent
    requires forall d, i | Live(next, d, i) :: Live(s, d, i) && At(next, d, i) == At(s, d, i)
    requires forall d, i | Unsent(next, d, i) :: Unsent(s, d, i)
    ensures Single(next)
  {
  }

  lemma SendSingle(s: System, d: DispatcherId)
    requires Single(s) && Enabled(s, SendOk(d))
    ensures Single(Next(s, SendOk(d)))
  {
    var next := Next(s, SendOk(d));
    forall e, i | Live(next, e, i) ensures Live(s, e, i) && At(next, e, i) == At(s, e, i) {}
    forall e, i | Unsent(next, e, i)
      ensures (At(next, e, i).row, At(next, e, i).ticket) !in next.sent
    {
      assert Unsent(s, e, i);
      assert Live(s, d, 0) && At(s, d, 0) == Head(s, d);
      assert SameTicket(At(s, d, 0), At(s, e, i)) ==> d == e && i == 0;
    }
  }

  lemma ClaimSingle(s: System, d: DispatcherId, ids: seq<RowId>)
    requires Consistent(s) && Single(s) && Enabled(s, ClaimBatch(d, ids))
    ensures Single(Next(s, ClaimBatch(d, ids)))
  {
    var next := Next(s, ClaimBatch(d, ids));
    assert Distinct(ids);
    ClaimQueue(s, d, ids);
    hide Answers, Enabled, Next;
    forall e, i, f, j | Live(next, e, i) && Live(next, f, j) && SameTicket(At(next, e, i), At(next, f, j))
      ensures e == f && i == j
    {
      assert e != d ==> Ticketed(s, At(s, e, i).row, At(s, e, i).ticket);
      assert f != d ==> Ticketed(s, At(s, f, j).row, At(s, f, j).ticket);
    }
    forall e, i | Unsent(next, e, i)
      ensures (At(next, e, i).row, At(next, e, i).ticket) !in next.sent
    {
      assert next.sent == s.sent by { SentKept(s, d, ids); }
      if e != d {
        assert Unsent(s, e, i) by { PhaseKept(s, d, ids, e); }
      } else {
        assert !Ticketed(s, At(next, e, i).row, At(next, e, i).ticket);
      }
    }
  }

  lemma SentKept(s: System, d: DispatcherId, ids: seq<RowId>)
    requires Enabled(s, ClaimBatch(d, ids))
    ensures Next(s, ClaimBatch(d, ids)).sent == s.sent
  {
  }

  lemma PhaseKept(s: System, d: DispatcherId, ids: seq<RowId>, e: DispatcherId)
    requires Enabled(s, ClaimBatch(d, ids)) && e != d && e in Next(s, ClaimBatch(d, ids)).live
    ensures e in s.live && Next(s, ClaimBatch(d, ids)).live[e] == s.live[e]
  {
  }

  lemma {:induction false} RunConsistent(states: seq<System>, steps: seq<Step>)
    requires Run(states, steps)
    ensures Consistent(Last(states)) && Single(Last(states))
    decreases |steps|
  {
    hide Enabled, Next;
    if steps != [] {
      RunPrefix(states, steps);
      RunConsistent(states[..|steps|], steps[..|steps| - 1]);
      NextConsistent(Last(states[..|steps|]), steps[|steps| - 1]);
      NextSingle(Last(states[..|steps|]), steps[|steps| - 1]);
    }
  }

  // ---------------------------------------------------------------------------------------------
  // Attempts, claims and sends
  // ---------------------------------------------------------------------------------------------

  /** How many claim steps of a run took the row. */
  function Claims(steps: seq<Step>, id: RowId): nat {
    if steps == [] then 0
    else
      var step := steps[|steps| - 1];
      Claims(steps[..|steps| - 1], id) + if step.ClaimBatch? && id in step.ids then 1 else 0
  }

  predicate Sends(s: System, step: Step, id: RowId) {
    step.SendOk? && AtWork(s, step.d) && Head(s, step.d).row == id
  }

  /** How many times the row's message reached the broker in a run. */
  function SendCount(states: seq<System>, steps: seq<Step>, id: RowId): nat
    requires |states| == |steps| + 1
  {
    if steps == [] then 0
    else
      var n := |steps| - 1;
      SendCount(states[..n + 1], steps[..n], id) + if Sends(states[n], steps[n], id) then 1 else 0
  }

  function TicketsOf(s: System, id: RowId): set<nat> {
    set p | p in s.sent && p.0 == id :: p.1
  }

  predicate WasSent(s: System, id: RowId) { TicketsOf(s, id) != {} }

  function UpTo(n: nat): (r: set<nat>)
    ensures |r| == n && forall t :: t in r <==> 1 <= t <= n
  {
    if n == 0 then {} else UpTo(n - 1) + {n}
  }

  lemma TicketsBounded(s: System, id: RowId)
    requires Consistent(s) && id in s.rows
    ensures |TicketsOf(s, id)| <= s.rows[id].attempts
  {
    hide Returns, Announces;
    forall t | t in TicketsOf(s, id) ensures 1 <= t <= s.rows[id].attempts {
      assert (id, t) in s.sent && Ticketed(s, id, t);
    }
    SubsetCard(TicketsOf(s, id), UpTo(s.rows[id].attempts));
  }

  /** Each send uses a ticket of its own. */
  lemma SendCounted(s: System, step: Step, id: RowId)
    requires Single(s) && Enabled(s, step)
    ensures |TicketsOf(Next(s, step), id)| == |TicketsOf(s, id)| + if Sends(s, step, id) then 1 else 0
  {
    hide Answers, FinishRow, NewRow, ClaimRow;
    var next := Next(s, step);
    if step.SendOk? {
      var head := Head(s, step.d);
      assert Unsent(s, step.d, 0) && At(s, step.d, 0) == head;
      if head.row == id {
        assert TicketsOf(next, id) == TicketsOf(s, id) + {head.ticket};
        assert head.ticket !in TicketsOf(s, id);
      } else {
        assert TicketsOf(next, id) == TicketsOf(s, id);
      }
    } else {
      assert next.sent == s.sent;
    }
  }

  lemma AttemptsStep(s: System, step: Step, id: RowId)
    requires Enabled(s, step)
    ensures var next := Next(s, step);
      && (id in s.rows ==> id in next.rows)
      && (id in s.rows ==>
            next.rows[id].attempts == s.rows[id].attempts + if step.ClaimBatch? && id in step.ids then 1 else 0)
      && (id !in s.rows && id in next.rows ==> next.rows[id].attempts == 0)
      && (id !in s.rows && step.ClaimBatch? ==> id !in step.ids)
  {
    hide FinishRow;
    if step.Finish? {
      FinishKeeps(s.rows[Head(s, step.d).row], s.clock, Message(s.live[step.d].phase));
    }
  }

  /** A row's attempts are exactly the claims made on it; it reaches the broker at most once for
      each of them. */
  lemma {:induction false} AttemptsCountClaims(states: seq<System>, steps: seq<Step>, id: RowId)
    requires Run(states, steps)
    ensures Claims(steps, id) == if id in Last(states).rows then Last(states).rows[id].attempts else 0
    ensures SendCount(states, steps, id) == |TicketsOf(Last(states), id)|
    ensures SendCount(states, steps, id) <= Claims(steps, id)
    decreases |steps|
  {
    hide Enabled, Next, Consistent, Single, Ticketed;
    RunConsistent(states, steps);
    if steps == [] {
      assert TicketsOf(START, id) == {};
    } else {
      var before, step := states[..|steps|], steps[|steps| - 1];
      RunPrefix(states, steps);
      RunConsistent(before, steps[..|steps| - 1]);
      AttemptsCountClaims(before, steps[..|steps| - 1], id);
      AttemptsStep(Last(before), step, id);
      SendCounted(Last(before), step, id);
      assert states[|steps| - 1] == Last(before);
    }
    if id in Last(states).rows {
      TicketsBounded(Last(states), id);
    } else {
      NoRowNoTickets(Last(states), id);
    }
  }

  lemma NoRowNoTickets(s: System, id: RowId)
    requires Consistent(s) && id !in s.rows
    ensures TicketsOf(s, id) == {}
  {
    hide Returns, Announces;
    assert forall t :: (id, t) in s.sent ==> Ticketed(s, id, t);
  }

  // ---------------------------------------------------------------------------------------------
  // Nothing queued is lost
  // ---------------------------------------------------------------------------------------------

  /** Completed, and never sent. */
  predicate Lost(s: System, id: RowId) { id in s.rows && s.rows[id].status == Completed && !WasSent(s, id) }

  /** The step finishes a claim of the row. */
  predicate Finishes(s: System, step: Step, id: RowId) {
    step.Finish? && AtWork(s, step.d) && Head(s, step.d).row == id
  }

  /** A failed send of the row, with an exception that prints as the empty text. */
  predicate FailsSilently(s: System, step: Step, id: RowId) {
    step.SendFails? && step.message == "" && AtWork(s, step.d) && Head(s, step.d).row == id
  }

  /** The row, not sent before, is finished after such a failure. */
  predicate LosesRow(s: System, step: Step, id: RowId) {
    Finishes(s, step, id) && s.live[step.d].phase == Failed("") && !WasSent(s, id)
  }

  /** The row is finished after a failure with a text. */
  predicate PutsBack(s: System, step: Step, id: RowId) {
    Finishes(s, step, id) && Message(s.live[step.d].phase) != ""
  }

  lemma SentStays(s: System, step: Step, id: RowId)
    requires Enabled(s, step)
    ensures WasSent(Next(s, step), id) <==> WasSent(s, id) || Sends(s, step, id)
  {
    hide Answers, FinishRow, NewRow, ClaimRow;
    var next := Next(s, step);
    if WasSent(s, id) {
      var t :| t in TicketsOf(s, id);
      assert (id, t) in next.sent;
      assert t in TicketsOf(next, id);
    }
    if step.SendOk? {
      assert Head(s, step.d).ticket in TicketsOf(next, Head(s, step.d).row);
      assert forall t | t in TicketsOf(next, id) :: t in TicketsOf(s, id) || Sends(s, step, id);
    } else {
      assert TicketsOf(next, id) == TicketsOf(s, id);
    }
  }

  /** The only way into `Completed` is finishing a claim with an empty error text. */
  lemma CompletesOnlyByFinish(s: System, step: Step, id: RowId)
    requires Enabled(s, step) && id in Next(s, step).rows
    requires !(id in s.rows && s.rows[id].status == Completed)
    ensures Next(s, step).rows[id].status == Completed <==>
      step.Finish? && Head(s, step.d).row == id && Message(s.live[step.d].phase) == ""
  {
    hide Answers;
  }

  /** A claim whose send succeeded is on record as sent. */
  predicate Recorded(s: System, d: DispatcherId) {
    InPhase(s, d, Sent) ==> (Head(s, d).row, Head(s, d).ticket) in s.sent
  }

  lemma NextRecorded(s: System, step: Step, d: DispatcherId)
    requires Enabled(s, step) && (d in s.live ==> Recorded(s, d))
    ensures Recorded(Next(s, step), d)
  {
    hide Answers, FinishRow, NewRow, ClaimRow;
  }

  lemma {:induction false} RunRecorded(states: seq<System>, steps: seq<Step>)
    requires Run(states, steps)
    ensures forall d | d in Last(states).live :: Recorded(Last(states), d)
    decreases |steps|
  {
    hide Enabled, Next, Recorded;
    if steps != [] {
      RunPrefix(states, steps);
      RunRecorded(states[..|steps|], steps[..|steps| - 1]);
      forall d | d in Last(states).live ensures Recorded(Last(states), d) {
        NextRecorded(Last(states[..|steps|]), steps[|steps| - 1], d);
      }
    }
  }

  /** One step: a row is lost after it if it loses the row, or if the row was lost and the step
      neither sends it nor puts it back. */
  lemma LostStep(s: System, step: Step, id: RowId)
    requires Enabled(s, step) && forall d | d in s.live :: Recorded(s, d)
    ensures Lost(Next(s, step), id) <==>
      (LosesRow(s, step, id) || (Lost(s, id) && !Sends(s, step, id) && !PutsBack(s, step, id)))
  {
    SentStays(s, step, id);
    if id in s.rows && s.rows[id].status == Completed {
      LeavesCompleted(s, step, id);
    } else if id in Next(s, step).rows {
      CompletesOnlyByFinish(s, step, id);
      if step.Finish? { RecordedWasSent(s, step.d); }
    }
  }

  lemma RecordedWasSent(s: System, d: DispatcherId)
    requires AtWork(s, d) && Recorded(s, d)
    ensures s.live[d].phase == Sent ==> WasSent(s, Head(s, d).row)
  {
    if s.live[d].phase == Sent { assert Head(s, d).ticket in TicketsOf(s, Head(s, d).row); }
  }

  /** Step `i` loses the row, and no later step sends it or puts it back. */
  predicate LostSince(states: seq<System>, steps: seq<Step>, id: RowId, i: int)
    requires |states| == |steps| + 1 && 0 <= i < |steps|
  {
    && LosesRow(states[i], steps[i], id)
    && forall j | i < j < |steps| :: !Sends(states[j], steps[j], id) && !PutsBack(states[j], steps[j], id)
  }

  lemma LostSinceStep(states: seq<System>, steps: seq<Step>, id: RowId, i: int)
    requires |states| == |steps| + 1 && 0 <= i < |steps| - 1
    ensures var n := |steps| - 1;
      LostSince(states, steps, id, i) <==>
      (LostSince(states[..n + 1], steps[..n], id, i)
       && !Sends(states[n], steps[n], id) && !PutsBack(states[n], steps[n], id))
  {
    hide LosesRow, Sends, PutsBack;
    var n := |steps| - 1;
    assert forall j | 0 <= j < n :: states[..n + 1][j] == states[j] && steps[..n][j] == steps[j];
  }

  /** The exact condition, over every run and for every row: it ends completed without ever having
      been sent if and only if some step finishes a failed send of it whose error text is empty,
      before any send of it succeeded, and no later step sends it or puts it back. */
  lemma {:induction false} LostExactlyBySilentFailure(states: seq<System>, steps: seq<Step>, id: RowId)
    requires Run(states, steps)
    ensures Lost(Last(states), id) <==> exists i :: 0 <= i < |steps| && LostSince(states, steps, id, i)
    decreases |steps|
  {
    hide Enabled, Next, Lost, LosesRow, Sends, PutsBack, Recorded;
    if steps == [] {
      assert !Lost(START, id) by { NothingLost(id); }
    } else {
      hide LostSince;
      var n := |steps| - 1;
      var before := states[..n + 1];
      RunPrefix(states, steps);
      LostExactlyBySilentFailure(before, steps[..n], id);
      RunRecorded(before, steps[..n]);
      LostStep(states[n], steps[n], id);
      LostSinceLast(states, steps, id);
      forall i | 0 <= i < n
        ensures LostSince(states, steps, id, i) <==>
          (LostSince(before, steps[..n], id, i)
           && !Sends(states[n], steps[n], id) && !PutsBack(states[n], steps[n], id))
      {
        LostSinceStep(states, steps, id, i);
      }
      if i :| 0 <= i < n && LostSince(before, steps[..n], id, i)
              && !Sends(states[n], steps[n], id) && !PutsBack(states[n], steps[n], id) {
        assert LostSince(states, steps, id, i);
      }
    }
  }

  lemma NothingLost(id: RowId)
    ensures !Lost(START, id)
  {
  }

  lemma LostSinceLast(states: seq<System>, steps: seq<Step>, id: RowId)
    requires |states| == |steps| + 1 && steps != []
    ensures var n := |steps| - 1;
      LostSince(states, steps, id, n) <==> LosesRow(states[n], steps[n], id)
  {
    hide LosesRow;
  }

  /** Where a silent failure in hand comes from: a send of that row failed silently earlier. */
  ghost predicate Traced(states: seq<System>, steps: seq<Step>, d: DispatcherId)
    requires |states| == |steps| + 1
  {
    var s := Last(states);
    InPhase(s, d, Failed("")) && (Head(s, d).row, Head(s, d).ticket) !in s.sent ==>
      exists k :: 0 <= k < |steps| && FailsSilently(states[k], steps[k], Head(s, d).row)
  }

  lemma TracedStep(s: System, step: Step, d: DispatcherId)
    requires Enabled(s, step) && (d in s.live ==> Recorded(s, d))
    requires InPhase(Next(s, step), d, Failed(""))
    requires (Head(Next(s, step), d).row, Head(Next(s, step), d).ticket) !in Next(s, step).sent
    ensures FailsSilently(s, step, Head(Next(s, step), d).row)
      || (InPhase(s, d, Failed("")) && Head(s, d) == Head(Next(s, step), d)
          && (Head(s, d).row, Head(s, d).ticket) !in s.sent)
  {
    hide Answers, FinishRow, NewRow, ClaimRow;
  }

  lemma {:induction false} RunTraced(states: seq<System>, steps: seq<Step>, d: DispatcherId)
    requires Run(states, steps)
    ensures Traced(states, steps, d)
    decreases |steps|
  {
    hide Enabled, Next, Recorded, FailsSilently;
    if steps != [] {
      var n := |steps| - 1;
      var before, s := states[..n + 1], Last(states);
      RunPrefix(states, steps);
      RunTraced(before, steps[..n], d);
      RunRecorded(before, steps[..n]);
      if InPhase(s, d, Failed("")) && (Head(s, d).row, Head(s, d).ticket) !in s.sent {
        TracedStep(states[n], steps[n], d);
        if !FailsSilently(states[n], steps[n], Head(s, d).row) {
          var k :| 0 <= k < n && FailsSilently(before[k], steps[..n][k], Head(s, d).row);
          assert FailsSilently(states[k], steps[k], Head(s, d).row);
        }
      }
    }
  }

  /** A row is only lost after a silent failure of its own. */
  lemma LostRowFailedSilently(states: seq<System>, steps: seq<Step>, id: RowId)
    requires Run(states, steps) && Lost(Last(states), id)
    ensures exists k :: 0 <= k < |steps| && FailsSilently(states[k], steps[k], id)
  {
    hide Enabled, Next, Lost, FailsSilently;
    LostExactlyBySilentFailure(states, steps, id);
    var i :| 0 <= i < |steps| && LostSince(states, steps, id, i);
    var before, s, d := states[..i + 1], states[i], steps[i].d;
    assert Run(before, steps[..i]) && Last(before) == s;
    RunTraced(before, steps[..i], d);
    assert (Head(s, d).row, Head(s, d).ticket) !in s.sent by {
      assert forall t | (id, t) in s.sent :: t in TicketsOf(s, id);
    }
    var k :| 0 <= k < i && FailsSilently(before[k], steps[..i][k], id);
    assert FailsSilently(states[k], steps[k], id);
  }

  lemma WithinAMinute(s: System, id: RowId)
    requires Consistent(s) && id in s.rows && s.rows[id].status != Completed
    ensures Claimable(Next(s, Tick(MAX_BACKOFF)), id)
  {
    assert Returns(s, s.rows[id]);
  }

  /** In every run, whatever a dispatcher had in hand when it crashed: its claims are gone, nothing else
      changes, and a minute later each row that is not completed can be claimed again. */
  lemma CrashIsSurvived(states: seq<System>, steps: seq<Step>, d: DispatcherId)
    requires Run(states, steps) && d in Last(states).live
    ensures var s, next := Last(states), Next(Last(states), Crash(d));
      && next == s.(live := next.live) && next.live.Keys == s.live.Keys - {d}
      && (forall e | e in next.live :: next.live[e] == s.live[e])
      && (forall id | id in s.rows && s.rows[id].status != Completed :: Claimable(Next(next, Tick(60_000_000)), id))
  {
    hide Consistent;
    RunConsistent(states, steps);
    var s := Last(states);
    forall id | id in s.rows && s.rows[id].status != Completed
      ensures Claimable(Next(Next(s, Crash(d)), Tick(60_000_000)), id)
    {
      WithinAMinute(s, id);
    }
  }

  /** Nothing queued is lost, for any number of dispatchers, crashes and clock ticks.  In every run,
      a row that is not completed can be claimed again within a minute, and every queued analysis
      run has its row; and a completed row has been sent, unless a send of that very row failed
      without an error text. */
  lemma NothingQueuedIsLost(states: seq<System>, steps: seq<Step>)
    requires Run(states, steps)
    ensures var s := Last(states);
      && (forall id | id in s.rows && s.rows[id].status != Completed :: Claimable(Next(s, Tick(MAX_BACKOFF)), id))
      && (forall id | id in s.rows && s.rows[id].status == Completed ::
            WasSent(s, id) || exists k :: 0 <= k < |steps| && FailsSilently(states[k], steps[k], id))
      && (forall run | run in s.runs :: Announces(s, run))
  {
    hide Next, Single, Ticketed, WasSent, Announces, FailsSilently;
    RunConsistent(states, steps);
    var s := Last(states);
    forall id | id in s.rows && s.rows[id].status != Completed
      ensures Claimable(Next(s, Tick(MAX_BACKOFF)), id)
    {
      WithinAMinute(s, id);
    }
    forall id | id in s.rows && s.rows[id].status == Completed
      ensures WasSent(s, id) || exists k :: 0 <= k < |steps| && FailsSilently(states[k], steps[k], id)
    {
      if !WasSent(s, id) { LostRowFailedSilently(states, steps, id); }
    }
  }

  /** The states of a run from its steps. */
  ghost predicate Reached(s: System, steps: seq<Step>, final: System) {
    exists states :: Steps(states, steps) && states[0] == s && Last(states) == final
  }

  lemma ReachedStep(s: System, steps: seq<Step>, mid: System, step: Step)
    requires Reached(s, steps, mid) && Enabled(mid, step)
    ensures Reached(s, steps + [step], Next(mid, step))
  {
    var states :| Steps(states, steps) && states[0] == s && Last(states) == mid;
    var longer, all := states + [Next(mid, step)], steps + [step];
    forall i | 0 <= i < |all| ensures Enabled(longer[i], all[i]) && longer[i + 1] == Next(longer[i], all[i]) {
      if i < |steps| {
        assert all[i] == steps[i] && longer[i] == states[i] && longer[i + 1] == states[i + 1];
      }
    }
    assert Steps(longer, all) && longer[0] == s && Last(longer) == Next(mid, step);
  }

  lemma ReachedStart(s: System)
    ensures Reached(s, [], s)
  {
    assert Steps([s], []) && [s][0] == s && Last([s]) == s;
  }

  /** A system with one queued run, for concrete runs. */
  function One(id: RowId, clock: int, row: Row, live: map<DispatcherId, Dispatcher>, sent: set<(RowId, nat)>): System {
    System(clock, map[id := row], map["run" := id], live, sent)
  }

  function Job(status: RowStatus, attempts: nat, availableAt: int, processedAt: Option<int>, error: string): Row {
    Row("analysis.requested", "analysis_run", "run", 0, status, attempts, availableAt, processedAt, error)
  }

  lemma OneQueued(id: RowId)
    ensures Enabled(START, QueueAnalysis("run", id))
    ensures Next(START, QueueAnalysis("run", id)) == One(id, 0, Job(Pending, 0, 0, None, ""), map[], {})
  {
  }

  lemma OneClaimed(id: RowId, s: System, d: DispatcherId)
    requires id in s.rows && s == One(id, s.clock, s.rows[id], s.live, s.sent) && d !in s.live && Claimable(s, id)
    ensures Enabled(s, ClaimBatch(d, [id]))
    ensures Next(s, ClaimBatch(d, [id]))
         == One(id, s.clock, ClaimRow(s.rows[id], s.clock),
                s.live[d := Dispatcher([Claim(id, s.rows[id].attempts + 1, s.clock + LEASE)], ToSend)], s.sent)
  {
    assert forall x | Claimable(s, x) :: x in [id];
    assert Answers(s, [id]);
    assert Batch(s, [id]) == [Claim(id, s.rows[id].attempts + 1, s.clock + LEASE)];
    assert Next(s, ClaimBatch(d, [id])).rows == map[id := ClaimRow(s.rows[id], s.clock)];
  }

  lemma OneSent(id: RowId, s: System, d: DispatcherId, c: Claim)
    requires id in s.rows && s == One(id, s.clock, s.rows[id], s.live, s.sent)
    requires d in s.live && s.live[d] == Dispatcher([c], ToSend) && c.row == id
    requires s.rows[id].eventType == "analysis.requested" && s.rows[id].aggregateType == "analysis_run"
    ensures Enabled(s, SendOk(d))
    ensures Next(s, SendOk(d))
         == One(id, s.clock, s.rows[id], s.live[d := Dispatcher([c], Sent)], s.sent + {(id, c.ticket)})
    ensures forall m :: Enabled(s, SendFails(d, m))
    ensures forall m :: (
      Next(s, SendFails(d, m))
      == One(id, s.clock, s.rows[id], s.live[d := Dispatcher([c], Failed(m))], s.sent))
  {
    assert Rejection("analysis.requested", "analysis_run") == "";
  }

  lemma OneFinished(id: RowId, s: System, d: DispatcherId, c: Claim)
    requires id in s.rows && s == One(id, s.clock, s.rows[id], s.live, s.sent)
    requires d in s.live && s.live[d].batch == [c] && s.live[d].phase != ToSend && c.row == id
    ensures Enabled(s, Finish(d))
    ensures Next(s, Finish(d))
         == One(id, s.clock, FinishRow(s.rows[id], s.clock, Message(s.live[d].phase)),
                s.live[d := Dispatcher([], ToSend)], s.sent)
  {
    assert [c][1..] == [];
  }

  /** And it happens: one row, one dispatcher, one send that fails with an empty error text. */
  lemma SilentFailureLosesARow(id: RowId)
    ensures exists steps, s :: (
      && Reached(START, steps, s) && id in s.rows
      && s.rows[id].status == Completed && !WasSent(s, id))
  {
    hide Next, Enabled, Steps, Reached;
    ReachedStart(START);
    OneQueued(id);
    var s1 := Next(START, QueueAnalysis("run", id));
    ReachedStep(START, [], START, QueueAnalysis("run", id));
    OneClaimed(id, s1, 0);
    var s2 := Next(s1, ClaimBatch(0, [id]));
    ReachedStep(START, [] + [QueueAnalysis("run", id)], s1, ClaimBatch(0, [id]));
    var c := Claim(id, 1, LEASE);
    OneSent(id, s2, 0, c);
    var s3 := Next(s2, SendFails(0, ""));
    ReachedStep(START, [] + [QueueAnalysis("run", id)] + [ClaimBatch(0, [id])], s2, SendFails(0, ""));
    OneFinished(id, s3, 0, c);
    var s4 := Next(s3, Finish(0));
    ReachedStep(START, [] + [QueueAnalysis("run", id)] + [ClaimBatch(0, [id])] + [SendFails(0, "")], s3, Finish(0));
    assert s4.sent == {};
    assert TicketsOf(s4, id) == {};
  }

  // ---------------------------------------------------------------------------------------------
  // Leases
  // ---------------------------------------------------------------------------------------------

  /** Every dispatcher finishes or crashes before a lease of its batch ends. */
  ghost predicate Timely(s: System, step: Step) {
    step.Tick? ==> forall d, i | Live(s, d, i) :: s.clock + step.dt < At(s, d, i).leaseEnd
  }

  predicate Leased(s: System, c: Claim) {
    c.row in s.rows && s.rows[c.row].status == Processing
    && s.rows[c.row].availableAt == c.leaseEnd && s.clock < c.leaseEnd
  }

  /** No row is in two hands, and a row in a hand is leased to it. */
  ghost predicate Exclusive(s: System) {
    && (forall d, i | Live(s, d, i) :: Leased(s, At(s, d, i)))
    && (forall d, i, e, j | Live(s, d, i) && Live(s, e, j) && At(s, d, i).row == At(s, e, j).row ::
          d == e && i == j)
  }

  lemma NextExclusive(s: System, step: Step)
    requires Exclusive(s) && Enabled(s, step) && Timely(s, step)
    ensures Exclusive(Next(s, step))
  {
    hide Answers, FinishRow, NewRow, ClaimRow;
    var next := Next(s, step);
    match step {
      case ClaimBatch(d, ids) => ClaimExclusive(s, d, ids);
      case Finish(d) =>
        FinishQueue(s, d);
        assert Live(s, d, 0) && At(s, d, 0) == Head(s, d);
        forall e, i | Live(next, e, i) ensures Leased(next, At(next, e, i)) {
          var j := if e == d then i + 1 else i;
          assert Leased(s, At(s, e, j));
          assert At(s, e, j).row == Head(s, d).row ==> e == d && j == 0;
        }
      case FinishBreaks(d, message) => HandsExclusive(s, next);
      case Crash(d) => HandsExclusive(s, next);
      case SendOk(d) => HandsExclusive(s, next);
      case SendFails(d, message) => HandsExclusive(s, next);
      case QueueAnalysis(run, id) => HandsExclusive(s, next);
      case Enqueue(id, _, _, _) => HandsExclusive(s, next);
      case Tick(dt) => HandsExclusive(s, next);
    }
  }

  lemma HandsExclusive(s: System, next: System)
    requires Exclusive(s)
    requires forall d, i | Live(next, d, i) :: (
      Live(s, d, i) && At(next, d, i) == At(s, d, i) && next.clock < At(s, d, i).leaseEnd)
    requires forall id | id in s.rows :: id in next.rows && next.rows[id] == s.rows[id]
    ensures Exclusive(next)
  {
    forall d, i | Live(next, d, i) ensures Leased(next, At(next, d, i)) {
      assert Leased(s, At(s, d, i));
    }
  }

  lemma ClaimExclusive(s: System, d: DispatcherId, ids: seq<RowId>)
    requires Exclusive(s) && Enabled(s, ClaimBatch(d, ids))
    ensures Exclusive(Next(s, ClaimBatch(d, ids)))
  {
    var next := Next(s, ClaimBatch(d, ids));
    ClaimQueue(s, d, ids);
    assert Distinct(ids);
    forall e, i | Live(s, e, i) ensures At(s, e, i).row !in ids {
      assert Leased(s, At(s, e, i));
      assert !Claimable(s, At(s, e, i).row);
    }
    forall e, i | Live(next, e, i) ensures Leased(next, At(next, e, i)) {
      if e == d {
        assert ids[i] in ids;
      } else {
        assert Leased(s, At(s, e, i));
      }
    }
  }

  /** Exactly when a completed row leaves `Completed`: a claim of it is finished with an error. */
  lemma LeavesCompleted(s: System, step: Step, id: RowId)
    requires Enabled(s, step) && id in s.rows && s.rows[id].status == Completed
    ensures id in Next(s, step).rows
    ensures Next(s, step).rows[id].status != Completed <==>
      step.Finish? && Head(s, step.d).row == id && Message(s.live[step.d].phase) != ""
  {
    if step.ClaimBatch? {
      assert !Claimable(s, id);
      assert id !in step.ids;
    }
  }

  ghost predicate OnTime(states: seq<System>, steps: seq<Step>) {
    |states| == |steps| + 1 && forall i | 0 <= i < |steps| :: Timely(states[i], steps[i])
  }

  lemma {:induction false} RunExclusive(states: seq<System>, steps: seq<Step>)
    requires Run(states, steps) && OnTime(states, steps)
    ensures Exclusive(Last(states))
    decreases |steps|
  {
    hide Enabled, Next, Timely, Leased;
    if steps != [] {
      RunPrefix(states, steps);
      RunExclusive(states[..|steps|], steps[..|steps| - 1]);
      NextExclusive(Last(states[..|steps|]), steps[|steps| - 1]);
    }
  }

  lemma FinishAtWork(s: System, d: DispatcherId)
    requires Enabled(s, Finish(d))
    ensures AtWork(s, d) && Live(s, d, 0) && At(s, d, 0) == Head(s, d)
  {
  }

  /** Mutual exclusion: when nobody outlives a lease, no run puts two live claims on one row. */
  lemma NoRowInTwoHands(states: seq<System>, steps: seq<Step>, d: DispatcherId, i: nat, e: DispatcherId, j: nat)
    requires Run(states, steps) && OnTime(states, steps)
    requires Live(Last(states), d, i) && Live(Last(states), e, j)
    requires At(Last(states), d, i).row == At(Last(states), e, j).row
    ensures d == e && i == j
  {
    hide Enabled, Next, Timely, Run, OnTime;
    RunExclusive(states, steps);
  }

  /** Lease safety: when nobody outlives a lease, a completed row has no live claim and stays
      completed for ever. */
  lemma LeaseSafety(states: seq<System>, steps: seq<Step>, id: RowId)
    requires Run(states, steps) && OnTime(states, steps) && steps != []
    requires id in states[|steps| - 1].rows && states[|steps| - 1].rows[id].status == Completed
    ensures id in Last(states).rows && Last(states).rows[id].status == Completed
    ensures forall d, i | Live(Last(states), d, i) :: At(Last(states), d, i).row != id
  {
    hide Enabled, Next, Timely;
    RunPrefix(states, steps);
    var before, step := Last(states[..|steps|]), steps[|steps| - 1];
    RunExclusive(states[..|steps|], steps[..|steps| - 1]);
    RunExclusive(states, steps);
    LeavesCompleted(before, step, id);
    if step.Finish? {
      FinishAtWork(before, step.d);
      assert Live(before, step.d, 0) && Leased(before, At(before, step.d, 0));
    }
    forall d, i | Live(Last(states), d, i) ensures At(Last(states), d, i).row != id {
      assert Leased(Last(states), At(Last(states), d, i));
    }
  }

  /** The state when dispatcher 1 has claimed the row that dispatcher 0 still has in hand. */
  function Overlap(id: RowId): System {
    One(id, LEASE, Job(Processing, 2, LEASE + LEASE, None, ""),
        map[0 := Dispatcher([Claim(id, 1, LEASE)], Failed("timeout")),
            1 := Dispatcher([Claim(id, 2, LEASE + LEASE)], ToSend)], {})
  }

  lemma OverlapReached(id: RowId)
    ensures exists steps :: Reached(START, steps, Overlap(id))
  {
    hide Next, Enabled, Steps, Reached;
    ReachedStart(START);
    OneQueued(id);
    var s1 := Next(START, QueueAnalysis("run", id));
    ReachedStep(START, [], START, QueueAnalysis("run", id));
    OneClaimed(id, s1, 0);
    var s2 := Next(s1, ClaimBatch(0, [id]));
    var t1 := [] + [QueueAnalysis("run", id)];
    ReachedStep(START, t1, s1, ClaimBatch(0, [id]));
    OneSent(id, s2, 0, Claim(id, 1, LEASE));
    var s3 := Next(s2, SendFails(0, "timeout"));
    var t2 := t1 + [ClaimBatch(0, [id])];
    ReachedStep(START, t2, s2, SendFails(0, "timeout"));
    OneTicked(id, s3, 30_000_000);
    var s4 := Next(s3, Tick(30_000_000));
    var t3 := t2 + [SendFails(0, "timeout")];
    ReachedStep(START, t3, s3, Tick(30_000_000));
    OneClaimed(id, s4, 1);
    ReachedStep(START, t3 + [Tick(30_000_000)], s4, ClaimBatch(1, [id]));
    assert Next(s4, ClaimBatch(1, [id])) == Overlap(id);
  }

  /** Without that, it does happen: a dispatcher that finishes after its lease puts back a row that
      another one has completed. */
  lemma LateFinisherReopens(id: RowId)
    ensures exists steps, s, d :: (
      && Reached(START, steps, s) && Enabled(s, Finish(d))
      && id in s.rows && s.rows[id].status == Completed
      && Next(s, Finish(d)).rows[id].status == Pending)
  {
    hide Next, Enabled, Steps, Reached;
    OverlapReached(id);
    var s5 := Overlap(id);
    var t5 :| Reached(START, t5, s5);
    var e := Claim(id, 2, LEASE + LEASE);
    OneSent(id, s5, 1, e);
    var s6 := Next(s5, SendOk(1));
    ReachedStep(START, t5, s5, SendOk(1));
    OneFinished(id, s6, 1, e);
    var s7 := Next(s6, Finish(1));
    ReachedStep(START, t5 + [SendOk(1)], s6, Finish(1));
    OneFinished(id, s7, 0, Claim(id, 1, LEASE));
  }

  lemma OneTicked(id: RowId, s: System, dt: nat)
    requires id in s.rows && s == One(id, s.clock, s.rows[id], s.live, s.sent)
    ensures Enabled(s, Tick(dt))
    ensures Next(s, Tick(dt)) == One(id, s.clock + dt, s.rows[id], s.live, s.sent)
  {
  }

  // ---------------------------------------------------------------------------------------------
  // Progress
  // ---------------------------------------------------------------------------------------------

  /** The claimable rows that the query prefers to `id`. */
  function Ahead(s: System, id: RowId): set<RowId>
    requires id in s.rows
  {
    set x | x in s.rows && x != id && Claimable(s, x) && s.rows[x].createdAt <= s.rows[id].createdAt
  }

  /** A claim either takes a claimable row, or takes fifty of the rows ahead of it and leaves it
      claimable. */
  lemma ClaimProgress(s: System, d: DispatcherId, ids: seq<RowId>, id: RowId)
    requires Enabled(s, ClaimBatch(d, ids)) && Claimable(s, id)
    ensures id in Next(s, ClaimBatch(d, ids)).rows
    ensures id in ids || (Claimable(Next(s, ClaimBatch(d, ids)), id)
      && |Ahead(Next(s, ClaimBatch(d, ids)), id)| == |Ahead(s, id)| - 50)
  {
    if id !in ids {
      var next, taken := Next(s, ClaimBatch(d, ids)), set x | x in ids;
      ElementsCard(ids);
      assert taken <= Ahead(s, id);
      assert Ahead(next, id) == Ahead(s, id) - taken;
    }
  }

  // ---------------------------------------------------------------------------------------------
  // What gets sent
  // ---------------------------------------------------------------------------------------------

  /** A row whose turn it is can be sent exactly if it is one of the three kinds. */
  lemma SendableExactly(s: System, d: DispatcherId)
    requires InPhase(s, d, ToSend) && Head(s, d).row in s.rows
    ensures var row := s.rows[Head(s, d).row];
      Enabled(s, SendOk(d)) <==>
        Known(row.eventType, row.aggregateType)
  {
    hide TaskFor, Rejection;
    RoutedExactly(s.rows[Head(s, d).row].eventType, s.rows[Head(s, d).row].aggregateType);
  }

  /** When the broker accepts it, the dispatcher can finish it, and it is sent and completed. */
  lemma SentIsCompleted(s: System, d: DispatcherId)
    requires Enabled(s, SendOk(d))
    ensures var next := Next(s, SendOk(d));
      && Enabled(next, Finish(d))
      && var end, claim := Next(next, Finish(d)), Head(s, d);
         && (claim.row, claim.ticket) in end.sent
         && claim.row in end.rows && end.rows[claim.row].status == Completed
         && end.rows[claim.row].processedAt == Some(s.clock)
  {
    hide TaskFor, Rejection;
  }

  /** Every sent row is there and of one of the three kinds. */
  predicate SentFits(s: System) {
    forall p | p in s.sent :: p.0 in s.rows &&
      Known(s.rows[p.0].eventType, s.rows[p.0].aggregateType)
  }

  lemma KindsStay(s: System, step: Step, id: RowId)
    requires Enabled(s, step) && id in s.rows
    ensures id in Next(s, step).rows
    ensures Next(s, step).rows[id].eventType == s.rows[id].eventType
    ensures Next(s, step).rows[id].aggregateType == s.rows[id].aggregateType
  {
    hide Answers, TaskFor, Rejection;
  }

  lemma NextSentFits(s: System, step: Step)
    requires SentFits(s) && Enabled(s, step)
    ensures SentFits(Next(s, step))
  {
    hide Answers, FinishRow, NewRow, ClaimRow, TaskFor, Rejection;
    forall id | id in s.rows
      ensures id in Next(s, step).rows && Next(s, step).rows[id].eventType == s.rows[id].eventType
              && Next(s, step).rows[id].aggregateType == s.rows[id].aggregateType
    {
      KindsStay(s, step, id);
    }
    if step.SendOk? { SendableExactly(s, step.d); }
  }

  /** In every run nothing else is ever sent. */
  lemma {:induction false} OnlyKnownKindsAreSent(states: seq<System>, steps: seq<Step>)
    requires Run(states, steps)
    ensures SentFits(Last(states))
    decreases |steps|
  {
    hide Enabled, Next, SentFits;
    if steps == [] {
      NothingSentFits();
    } else {
      RunPrefix(states, steps);
      OnlyKnownKindsAreSent(states[..|steps|], steps[..|steps| - 1]);
      NextSentFits(Last(states[..|steps|]), steps[|steps| - 1]);
    }
  }

  lemma NothingSentFits()
    ensures SentFits(START)
  {
  }
}
