/** The numbered event log of each run, written by concurrent transactions.

    Allocating a number updates the run's row, so the transaction holds that row's lock until it
    commits or rolls back.  A transaction's own changes are visible only to itself until then. */
module EventLog {
  import opened Wrappers
  import opened Sse

  type RunId = string
  type TxnId = nat

  datatype RunStatus =
    Queued | Running | WaitingApproval | Completed | Failed | Cancelled | Rejected

  predicate Terminal(s: RunStatus) {
    s == Completed || s == Failed || s == Cancelled || s == Rejected
  }

  /** A committed run row with its event rows in order of insertion. */
  datatype Run = Run(status: RunStatus, last: nat, events: seq<Event>)

  /** What an open transaction has done to one run: the number it started from and its new rows. */
  datatype Draft = Draft(base: nat, rows: seq<Event>) {
    function Last(): nat { base + |rows| }
  }

  datatype Db = Db(runs: map<RunId, Run>, open: map<TxnId, map<RunId, Draft>>)

  datatype Outcome = Done | Allocated(sequence: nat) | MissingRun | Blocked

  /** The database operations the writers perform.  `SetStatus` is a status update committed on
      its own, as the executor and the cancel endpoint do before they append the final event. */
  datatype Op =
    | CreateRun(t: TxnId, r: RunId)
    | Append(t: TxnId, r: RunId, name: string, raw: string)
    | Commit(t: TxnId)
    | Rollback(t: TxnId)
    | SetStatus(r: RunId, status: RunStatus)

  predicate Holds(db: Db, t: TxnId, r: RunId) { t in db.open && r in db.open[t] }

  predicate LockedByOther(db: Db, t: TxnId, r: RunId) {
    exists u | u in db.open :: u != t && r in db.open[u]
  }

  predicate Locked(db: Db, r: RunId) { exists u | u in db.open :: r in db.open[u] }

  function Drafts(db: Db, t: TxnId): map<RunId, Draft> {
    if t in db.open then db.open[t] else map[]
  }

  function Put(db: Db, t: TxnId, r: RunId, d: Draft): Db {
    db.(open := db.open[t := Drafts(db, t)[r := d]])
  }

  /** The committed row of a run once `d` is committed on top of it. */
  function Merged(db: Db, r: RunId, d: Draft): Run {
    if r in db.runs then db.runs[r].(last := d.Last(), events := db.runs[r].events + d.rows)
    else Run(Queued, d.Last(), d.rows)
  }

  function Apply(db: Db, op: Op): (Db, Outcome) {
    match op
    case CreateRun(t, r) =>
      if r in db.runs || Locked(db, r) then (db, Blocked)
      else (Put(db, t, r, Draft(0, [])), Done)
    case Append(t, r, name, raw) =>
      if !Holds(db, t, r) && r !in db.runs then (db, MissingRun)
      else if !Holds(db, t, r) && LockedByOther(db, t, r) then (db, Blocked)
      else
        var d := if Holds(db, t, r) then db.open[t][r] else Draft(db.runs[r].last, []);
        var n := d.Last() + 1;
        (Put(db, t, r, d.(rows := d.rows + [Event(n, name, raw)])), Allocated(n))
    case Commit(t) =>
      var mine := Drafts(db, t);
      (Db(map r | r in db.runs.Keys + mine.Keys ::
            if r in mine then Merged(db, r, mine[r]) else db.runs[r],
          db.open - {t}), Done)
    case Rollback(t) => (db.(open := db.open - {t}), Done)
    case SetStatus(r, status) =>
      if r !in db.runs then (db, MissingRun)
      else if Locked(db, r) then (db, Blocked)
      else (db.(runs := db.runs[r := db.runs[r].(status := status)]), Done)
  }

  function Execute(db: Db, ops: seq<Op>): Db {
    if ops == [] then db else Apply(Execute(db, ops[..|ops| - 1]), ops[|ops| - 1]).0
  }

  const EMPTY: Db := Db(map[], map[])

  // ---------------------------------------------------------------------------------------------
  // The log has no gap
  // ---------------------------------------------------------------------------------------------

  predicate Numbered(rows: seq<Event>, base: nat) {
    forall i | 0 <= i < |rows| :: rows[i].sequence == base + i + 1
  }

  /** The committed numbers are exactly 1, 2, .., n and the stored counter is n. */
  predicate Gapless(run: Run) { Numbered(run.events, 0) && run.last == |run.events| }

  /** A draft continues the committed log of its run. */
  predicate Continues(db: Db, r: RunId, d: Draft) {
    d.base == (if r in db.runs then db.runs[r].last else 0) && Numbered(d.rows, d.base)
  }

  ghost predicate Sound(db: Db) {
    && (forall r | r in db.runs :: Gapless(db.runs[r]))
    && (forall t, r | Holds(db, t, r) :: Continues(db, r, db.open[t][r]))
    && (forall t, u, r | Holds(db, t, r) && Holds(db, u, r) :: t == u)
  }

  lemma PutSound(db: Db, t: TxnId, r: RunId, d: Draft)
    requires Sound(db) && !LockedByOther(db, t, r) && Continues(db, r, d)
    ensures Sound(Put(db, t, r, d))
  {
    hide Gapless, Numbered;
    var next := Put(db, t, r, d);
    forall u, q | Holds(next, u, q)
      ensures Continues(next, q, next.open[u][q]) && (Holds(db, u, q) || (u == t && q == r))
    {
      assert (u == t && q == r) || Holds(db, u, q);
    }
    forall u, v, q | Holds(next, u, q) && Holds(next, v, q) ensures u == v {
      if q == r {
        assert u == t || !Holds(db, u, q);
        assert v == t || !Holds(db, v, q);
      }
    }
  }

  lemma AppendSound(db: Db, t: TxnId, r: RunId, name: string, raw: string)
    requires Sound(db)
    ensures Sound(Apply(db, Append(t, r, name, raw)).0)
  {
    if Holds(db, t, r) || (r in db.runs && !LockedByOther(db, t, r)) {
      var d := if Holds(db, t, r) then db.open[t][r] else Draft(db.runs[r].last, []);
      assert Continues(db, r, d);
      assert !LockedByOther(db, t, r) by {
        forall u | u in db.open && u != t ensures r !in db.open[u] {
          assert Holds(db, t, r) && Holds(db, u, r) ==> t == u;
        }
      }
      PutSound(db, t, r, d.(rows := d.rows + [Event(d.Last() + 1, name, raw)]));
    }
  }

  /** The row lock at work: every operation of every transaction keeps the log sound. */
  lemma ApplySound(db: Db, op: Op)
    requires Sound(db)
    ensures Sound(Apply(db, op).0)
  {
    match op {
      case Commit(t) => CommitSound(db, t);
      case Append(t, r, name, raw) => AppendSound(db, t, r, name, raw);
      case CreateRun(t, r) =>
        if r !in db.runs && !Locked(db, r) {
          assert !LockedByOther(db, t, r);
          PutSound(db, t, r, Draft(0, []));
        }
      case Rollback(t) =>
        var next := Apply(db, op).0;
        assert forall u, r :: Holds(next, u, r) ==> Holds(db, u, r);
      case SetStatus(r, status) =>
        var next := Apply(db, op).0;
        assert forall u, q :: Holds(next, u, q) <==> Holds(db, u, q);
    }
  }

  lemma MergedGapless(db: Db, r: RunId, d: Draft)
    requires Continues(db, r, d) && (r in db.runs ==> Gapless(db.runs[r]))
    ensures Gapless(Merged(db, r, d))
  {
  }

  lemma CommitSound(db: Db, t: TxnId)
    requires Sound(db)
    ensures Sound(Apply(db, Commit(t)).0)
  {
    hide Gapless, Numbered, Merged;
    var mine, next := Drafts(db, t), Apply(db, Commit(t)).0;
    forall r | r in next.runs ensures Gapless(next.runs[r]) {
      if r in mine {
        assert Holds(db, t, r);
        MergedGapless(db, r, mine[r]);
      }
    }
    forall u, r | Holds(next, u, r) ensures Holds(db, u, r) && Continues(next, r, next.open[u][r]) {
      assert Holds(db, u, r) && u != t;
      assert r !in mine by { assert Holds(db, t, r) ==> t == u; }
    }
  }

  /** Gapless log: after any interleaving of any transactions, aborted ones included. */
  lemma {:induction false} GaplessLog(ops: seq<Op>)
    ensures Sound(Execute(EMPTY, ops))
    ensures forall r | r in Execute(EMPTY, ops).runs :: Gapless(Execute(EMPTY, ops).runs[r])
  {
    if ops != [] {
      GaplessLog(ops[..|ops| - 1]);
      ApplySound(Execute(EMPTY, ops[..|ops| - 1]), ops[|ops| - 1]);
    }
  }

  /** The committed rows of `r`; none before the run is committed. */
  function LogOf(db: Db, r: RunId): seq<Event> {
    if r in db.runs then db.runs[r].events else []
  }

  /** Committed events are never renumbered, replaced or removed. */
  lemma AppendOnly(db: Db, op: Op, r: RunId)
    ensures LogOf(db, r) <= LogOf(Apply(db, op).0, r)
    ensures r in db.runs ==> r in Apply(db, op).0.runs
  {
  }

  predicate Ends(op: Op, t: TxnId) { op == Commit(t) || op == Rollback(t) }

  lemma {:induction false} ExecuteSound(db: Db, ops: seq<Op>)
    requires Sound(db)
    ensures Sound(Execute(db, ops))
  {
    if ops != [] {
      ExecuteSound(db, ops[..|ops| - 1]);
      ApplySound(Execute(db, ops[..|ops| - 1]), ops[|ops| - 1]);
    }
  }

  /** Only its own operations touch a transaction's draft. */
  lemma DraftStep(db: Db, t: TxnId, r: RunId, op: Op)
    requires Holds(db, t, r) && !Ends(op, t)
    ensures var next := Apply(db, op).0;
      && Holds(next, t, r) && next.open[t][r].base == db.open[t][r].base
      && db.open[t][r].rows <= next.open[t][r].rows
  {
  }

  lemma {:induction false} DraftKept(db: Db, t: TxnId, r: RunId, ops: seq<Op>)
    requires Holds(db, t, r)
    requires forall i | 0 <= i < |ops| :: !Ends(ops[i], t)
    ensures var next := Execute(db, ops);
      && Holds(next, t, r) && next.open[t][r].base == db.open[t][r].base
      && db.open[t][r].rows <= next.open[t][r].rows
  {
    hide Apply;
    if ops != [] {
      var init := ops[..|ops| - 1];
      DraftKept(db, t, r, init);
      DraftStep(Execute(db, init), t, r, ops[|ops| - 1]);
    }
  }

  lemma AppendEffect(db: Db, t: TxnId, r: RunId, name: string, raw: string)
    requires Apply(db, Append(t, r, name, raw)).1.Allocated?
    ensures var (next, res) := Apply(db, Append(t, r, name, raw));
      && Holds(next, t, r)
      && var d := next.open[t][r];
         res.sequence == d.Last() && d.rows != [] && d.rows[|d.rows| - 1] == Event(res.sequence, name, raw)
  {
  }

  /** A number is allocated exactly if the transaction already holds the run's row, or the run is
      committed and nobody holds it; and it is the one after everything the transaction can see. */
  lemma AllocatesExactly(db: Db, t: TxnId, r: RunId, name: string, raw: string)
    requires Sound(db)
    ensures var res := Apply(db, Append(t, r, name, raw)).1;
      && (res.Allocated? <==> Holds(db, t, r) || (r in db.runs && !Locked(db, r)))
      && (res.Allocated? ==>
            res.sequence == |LogOf(db, r)| + (if Holds(db, t, r) then |db.open[t][r].rows| else 0) + 1)
      && (res == MissingRun <==> !Holds(db, t, r) && r !in db.runs)
  {
    hide Numbered;
    assert Holds(db, t, r) ==> Continues(db, r, db.open[t][r]);
    assert r in db.runs ==> Gapless(db.runs[r]);
    if !Holds(db, t, r) {
      assert LockedByOther(db, t, r) <==> Locked(db, r) by {
        if u :| u in db.open && r in db.open[u] { assert u != t; }
      }
    }
  }

  /** A new run is there, queued and without events, once the transaction that creates it commits. */
  lemma CreatedOnCommit(db: Db, t: TxnId, r: RunId)
    requires r !in db.runs && !Locked(db, r)
    ensures var next := Apply(Apply(db, CreateRun(t, r)).0, Commit(t)).0;
      && Apply(db, CreateRun(t, r)).1 == Done
      && r in next.runs && next.runs[r] == Run(Queued, 0, [])
  {
  }

  /** The status of a committed run is changed by a status update that finds its row unlocked, and by
      nothing else; a run that appears is queued. */
  lemma StatusIsSetExactly(db: Db, op: Op, r: RunId)
    ensures var next := Apply(db, op).0;
      var now := if op.SetStatus? && op.r == r && !Locked(db, r) && r in db.runs then Some(op.status)
                 else if r in db.runs then Some(db.runs[r].status) else None;
      && (r in db.runs ==> r in next.runs && Some(next.runs[r].status) == now)
      && (r !in db.runs && r in next.runs ==> next.runs[r].status == Queued)
  {
  }

  /** Committing publishes a transaction's rows behind the committed ones. */
  lemma CommitPublishes(db: Db, t: TxnId, r: RunId)
    requires Sound(db)
    ensures LogOf(Apply(db, Commit(t)).0, r)
         == LogOf(db, r) + (if Holds(db, t, r) then db.open[t][r].rows else [])
    ensures Holds(db, t, r) ==> |LogOf(db, r)| == db.open[t][r].base
  {
  }

  /** An allocated number is a promise: whatever the other transactions do in the meantime, once
      this transaction commits, the log holds this event at that place, under that number. */
  lemma AllocatedIsStored(db: Db, t: TxnId, r: RunId, name: string, raw: string, ops: seq<Op>)
    requires Sound(db) && Apply(db, Append(t, r, name, raw)).1.Allocated?
    requires forall i | 0 <= i < |ops| :: !Ends(ops[i], t)
    ensures var (next, res) := Apply(db, Append(t, r, name, raw));
            var log := LogOf(Apply(Execute(next, ops), Commit(t)).0, r);
            0 < res.sequence <= |log| && log[res.sequence - 1] == Event(res.sequence, name, raw)
  {
    hide Apply, Execute, Sound;
    var (next, res) := Apply(db, Append(t, r, name, raw));
    AppendEffect(db, t, r, name, raw);
    ApplySound(db, Append(t, r, name, raw));
    DraftKept(next, t, r, ops);
    ExecuteSound(next, ops);
    CommitPublishes(Execute(next, ops), t, r);
  }

  /** A rollback gives all its numbers back: however many events the aborted transaction had
      appended, the next allocation, by whichever transaction, gets the number that it allocated
      first, which is the one after the committed log. */
  lemma RollbackLeavesNoHole(db: Db, t: TxnId, u: TxnId, r: RunId, name: string, raw: string)
    requires Sound(db) && r in db.runs && Holds(db, t, r)
    ensures var back := Apply(db, Rollback(t)).0;
            var rows := db.open[t][r].rows;
            && back.runs == db.runs
            && (rows != [] ==> rows[0].sequence == |LogOf(db, r)| + 1)
            && Apply(back, Append(u, r, name, raw)).1 == Allocated(|LogOf(db, r)| + 1)
  {
    var back := Apply(db, Rollback(t)).0;
    assert Continues(db, r, db.open[t][r]);
    assert Gapless(db.runs[r]);
    forall v | v in back.open ensures r !in back.open[v] {
      assert Holds(db, t, r) && (Holds(db, v, r) ==> v == t);
    }
    assert !Holds(back, u, r) && !LockedByOther(back, u, r);
  }

  // ---------------------------------------------------------------------------------------------
  // The store the writers call
  // ---------------------------------------------------------------------------------------------

  class EventStore {
    var runs: map<RunId, Run>
    var open: map<TxnId, map<RunId, Draft>>

    ghost function State(): Db reads this { Db(runs, open) }

    constructor ()
      ensures State() == EMPTY
    {
      runs, open := map[], map[];
    }

    /** `append_event`: the number is allocated by the database, not from the caller's copy of the
        run, and the event row carries it.  With `commit` the transaction ends here.  A caller
        that would have to wait for the row lock gets `Blocked` and nothing changes. */
    method AppendEvent(t: TxnId, r: RunId, name: string, raw: string, commit: bool)
      returns (res: Outcome)
      modifies this
      ensures var step := Apply(old(State()), Append(t, r, name, raw));
        && res == step.1
        && State() == if commit && res.Allocated? then Apply(step.0, Commit(t)).0 else step.0
      ensures old(Sound(State())) ==> Sound(State())
    {
      ghost var before, op := State(), Append(t, r, name, raw);
      ApplySoundIf(before, op);
      var draft;
      if t in open && r in open[t] {
        draft := open[t][r];
      } else if r !in runs {
        return MissingRun;
      } else if exists u | u in open :: u != t && r in open[u] {
        return Blocked;
      } else {
        draft := Draft(runs[r].last, []);
      }
      var sequence := draft.Last() + 1;
      var mine := if t in open then open[t] else map[];
      open := open[t := mine[r := draft.(rows := draft.rows + [Event(sequence, name, raw)])]];
      assert State() == Apply(before, op).0;
      res := Allocated(sequence);
      if commit {
        CommitTxn(t);
      }
    }

    method CommitTxn(t: TxnId)
      modifies this
      ensures State() == Apply(old(State()), Commit(t)).0
      ensures old(Sound(State())) ==> Sound(State())
    {
      ApplySoundIf(State(), Commit(t));
      var mine := if t in open then open[t] else map[];
      runs := map r | r in runs.Keys + mine.Keys ::
        if r in mine then Merged(Db(runs, open), r, mine[r]) else runs[r];
      open := open - {t};
    }

    method RollbackTxn(t: TxnId)
      modifies this`open
      ensures State() == Apply(old(State()), Rollback(t)).0
      ensures old(Sound(State())) ==> Sound(State())
    {
      ApplySoundIf(State(), Rollback(t));
      open := open - {t};
    }
  }

  lemma ApplySoundIf(db: Db, op: Op)
    ensures Sound(db) ==> Sound(Apply(db, op).0)
  {
    if Sound(db) { ApplySound(db, op); }
  }
}
