/** When the sweeper's expiry meets a payment that the chain has delivered. */
module LifecycleExpiry {
  import opened Wrappers
  import opened Finality
  import opened Tables
  import opened Lifecycle
  import opened LifecycleStatus

  /** The row this event promotes, if it is stored by then. */
  function Landed(s: State, e: Event): set<string>
    requires Enabled(s, e)
  {
    if e.Promote? && s.tasks[e.t].id in s.rows then {s.tasks[e.t].id} else {}
  }

  /** The rows any promotion of a run has landed on, beyond those known before. */
  function Promotions(s: State, es: seq<Event>, before: set<string>): set<string>
    requires ValidRun(s, es)
    decreases |es|
  {
    if es == [] then before else Promotions(Step(s, es[0]), es[1..], before + Landed(s, es[0]))
  }

  /** A row that is neither waiting nor failed. */
  predicate Alive(row: Row) {
    row.status !in {PreConfirmed, Failed}
  }

  /** No promotion lands on a row that a sweeper has read and not yet written. */
  predicate CalmSweep(s: State, e: Event)
    requires Enabled(s, e)
  {
    forall t :: t in s.tasks && s.tasks[t].Swept? ==> s.tasks[t].id !in Landed(s, e)
  }

  predicate CalmSweepRun(s: State, es: seq<Event>)
    requires ValidRun(s, es)
    decreases |es|
  {
    es == [] || (CalmSweep(s, es[0]) && CalmSweepRun(Step(s, es[0]), es[1..]))
  }

  // ----- what a run keeps -----

  predicate Holding(task: Task) {
    task.Swept? || Polling(task)
  }

  predicate HoldsOk(s: State, promoted: set<string>, task: Task) {
    (task.Swept? ==> task.id in s.rows && (task.id !in promoted ==> !Alive(s.rows[task.id])))
    && (Polling(task) ==> task.id in s.rows && s.rows[task.id].status != PreConfirmed)
  }

  /** A sweeper and a poller at the same row. */
  predicate Shared(sweep: Task, poll: Task) {
    sweep.Swept? && Polling(poll) && sweep.id == poll.id
  }

  /** A promoted row never waits again; an unpromoted one under a sweeper is dead and under no poller. */
  predicate Marks(s: State, promoted: set<string>) {
    (forall id :: id in promoted ==> id in s.rows && s.rows[id].status != PreConfirmed)
    && (forall t :: t in s.tasks ==> HoldsOk(s, promoted, s.tasks[t]))
    && (forall t, u :: t in s.tasks && u in s.tasks && Shared(s.tasks[t], s.tasks[u]) ==> s.tasks[t].id in promoted)
  }

  /** No row under a sweeper was ever promoted. */
  predicate Spared(s: State, promoted: set<string>) {
    forall t :: t in s.tasks && s.tasks[t].Swept? ==> s.tasks[t].id !in promoted
  }

  /** Whoever holds a snapshot after a step held it before. */
  predicate NoNewHolds(s: State, s': State) {
    forall t :: t in s'.tasks && Holding(s'.tasks[t]) ==>
      t in s.tasks && Holding(s.tasks[t]) && s'.tasks[t].id == s.tasks[t].id
      && s'.tasks[t].Swept? == s.tasks[t].Swept? && Polling(s'.tasks[t]) == Polling(s.tasks[t])
  }

  // ----- no step but a sweep or a poll takes a snapshot -----

  lemma PutHolds(s: State, s1: State, t: TaskId, task: Task)
    requires s1.tasks == s.tasks && !Holding(task)
    ensures NoNewHolds(s, Put(s1, t, task))
  {}

  lemma DeliverHolds(s: State, t: TaskId, transfer: Transfer)
    requires t !in s.tasks
    ensures NoNewHolds(s, DeliverStep(s, t, transfer)) && DeliverStep(s, t, transfer).rows == s.rows
  {}

  lemma TriggerHolds(s: State, t: TaskId, transfer: Transfer)
    requires t !in s.tasks
    ensures NoNewHolds(s, TriggerStep(s, t, transfer)) && TriggerStep(s, t, transfer).rows == s.rows
  {}

  lemma ClaimHolds(s: State, e: Event)
    requires Enabled(s, e) && ClaimEvent(e)
    ensures NoNewHolds(s, Step(s, e)) && Step(s, e).rows == s.rows
  {
    match e
    case Post(_, _, _) =>
    case Deliver(t, transfer) => DeliverHolds(s, t, transfer);
    case DeliverTrigger(t, transfer) => TriggerHolds(s, t, transfer);
  }

  lemma ObserveHolds(s: State, t: TaskId, head: Option<int>)
    requires Enabled(s, Observe(t, head))
    ensures NoNewHolds(s, ObserveStep(s, t, head)) && ObserveStep(s, t, head).rows == s.rows
  {}

  lemma InvalidateHolds(s: State, t: TaskId, ok: bool)
    requires Enabled(s, Invalidate(t, ok))
    ensures NoNewHolds(s, InvalidateStep(s, t, ok)) && InvalidateStep(s, t, ok).rows == s.rows
  {}

  lemma RecordPostedHolds(s: State, t: TaskId, stored: bool)
    requires Enabled(s, RecordPosted(t, stored))
    ensures NoNewHolds(s, RecordPostedStep(s, t, stored))
  {
    var Posted(id, transfer) := s.tasks[t];
    var ready := Ready(transfer, PaymentPreConfirmed, None, Ingest);
    PutHolds(s, s, t, ready);
    PutHolds(s, InsertRow(s, t, id, RowFor(transfer, PreConfirmed, 0)), t, ready);
  }

  lemma PromoteHolds(s: State, t: TaskId)
    requires Enabled(s, Promote(t))
    ensures NoNewHolds(s, PromoteStep(s, t))
  {
    var Correlated(id, transfer) := s.tasks[t];
    if id in s.rows {
      PutHolds(s, SetRow(s, id, PromotedRow(s.rows[id], transfer)), t, Promoted(id, transfer));
    }
  }

  lemma RecordIngestHolds(s: State, t: TaskId, id: string, stored: bool)
    requires t in s.tasks && s.tasks[t].Checked?
    ensures NoNewHolds(s, RecordIngestStep(s, t, id, stored))
  {}

  lemma RecordTriggerHolds(s: State, t: TaskId, id: string, stored: bool)
    requires t in s.tasks && s.tasks[t].TriggerReady?
    ensures NoNewHolds(s, RecordTriggerStep(s, t, id, stored))
  {}

  lemma RecordHolds(s: State, t: TaskId, id: string, stored: bool)
    requires Enabled(s, Record(t, id, stored))
    ensures NoNewHolds(s, Step(s, Record(t, id, stored)))
  {
    if s.tasks[t].Checked? {
      RecordIngestHolds(s, t, id, stored);
    } else {
      RecordTriggerHolds(s, t, id, stored);
    }
  }

  // A snapshot's own step keeps it, in its next phase, or ends it.

  lemma MarkReorgedHolds(s: State, t: TaskId)
    requires t in s.tasks && s.tasks[t].AtHead?
    ensures NoNewHolds(s, MarkReorgedStep(s, t))
  {
    PutHolds(s, SetStatus(s, s.tasks[t].id, Reorged), t, ReorgMarked(s.tasks[t].id, s.tasks[t].row));
  }

  lemma WriteDepthHolds(s: State, t: TaskId)
    requires t in s.tasks && s.tasks[t].AtHead?
    ensures NoNewHolds(s, WriteDepthStep(s, t))
  {}

  lemma WriteStatusHolds(s: State, t: TaskId)
    requires t in s.tasks && s.tasks[t].Deepened?
    ensures NoNewHolds(s, WriteStatusStep(s, t))
  {
    var Deepened(id, row, _) := s.tasks[t];
    PutHolds(s, SetStatus(s, id, NextStatus(row.status)), t, PollerReady(row));
  }

  lemma ExpireHolds(s: State, t: TaskId)
    requires t in s.tasks && s.tasks[t].Swept?
    ensures NoNewHolds(s, ExpireStep(s, t))
  {
    var Swept(id, row) := s.tasks[t];
    PutHolds(s, SetStatus(s, id, Failed), t, Ready(Reconstruct(row), PaymentFailed, None, Background));
  }

  lemma StepHolds(s: State, e: Event)
    requires Enabled(s, e) && !e.Poll? && !e.Sweep?
    ensures NoNewHolds(s, Step(s, e))
  {
    match e
    case Post(_, _, _) => ClaimHolds(s, e);
    case Deliver(_, _) => ClaimHolds(s, e);
    case DeliverTrigger(_, _) => ClaimHolds(s, e);
    case Observe(t, head) => ObserveHolds(s, t, head);
    case Invalidate(t, ok) => InvalidateHolds(s, t, ok);
    case RecordPosted(t, stored) => RecordPostedHolds(s, t, stored);
    case Record(t, id, stored) => RecordHolds(s, t, id, stored);
    case Promote(t) => PromoteHolds(s, t);
    case Emit(_, _, _) =>
    case Stop(t) =>
    case MarkReorged(t, _) => MarkReorgedHolds(s, t);
    case WriteDepth(t) => WriteDepthHolds(s, t);
    case WriteStatus(t) => WriteStatusHolds(s, t);
    case Expire(t) => ExpireHolds(s, t);
  }

  // ----- marks are kept -----

  lemma SameRows(s: State, s': State, promoted: set<string>)
    requires Marks(s, promoted) && s'.rows == s.rows && NoNewHolds(s, s')
    ensures Marks(s', promoted)
  {
    forall t | t in s'.tasks ensures HoldsOk(s', promoted, s'.tasks[t]) {
      if Holding(s'.tasks[t]) {
        assert HoldsOk(s, promoted, s.tasks[t]);
      }
    }
  }

  /** One row is written: it does not go back to waiting, and comes alive only by promotion or under no sweeper. */
  lemma OneRow(s: State, s': State, id: string, promoted: set<string>, promoted': set<string>)
    requires Marks(s, promoted) && NoNewHolds(s, s') && promoted <= promoted' <= promoted + {id}
    requires id in s'.rows && s'.rows == s.rows[id := s'.rows[id]]
    requires if id in s.rows then s'.rows[id].status != PreConfirmed else promoted' == promoted
    requires Alive(s'.rows[id]) ==>
      id in promoted' || forall t :: t in s.tasks && s.tasks[t].Swept? ==> s.tasks[t].id != id
    ensures Marks(s', promoted')
  {
    forall t | t in s'.tasks ensures HoldsOk(s', promoted', s'.tasks[t]) {
      if Holding(s'.tasks[t]) {
        assert HoldsOk(s, promoted, s.tasks[t]);
      }
    }
  }

  lemma FreshRowMarks(s: State, s': State, id: string, promoted: set<string>)
    requires Marks(s, promoted) && NoNewHolds(s, s') && id !in s.rows && id in s'.rows
    requires s'.rows == s.rows[id := s'.rows[id]]
    ensures Marks(s', promoted)
  {
    forall t | t in s.tasks && s.tasks[t].Swept? ensures s.tasks[t].id != id {
      assert HoldsOk(s, promoted, s.tasks[t]);
    }
    OneRow(s, s', id, promoted, promoted);
  }

  lemma RecordPostedMarks(s: State, t: TaskId, stored: bool, promoted: set<string>)
    requires Marks(s, promoted) && Enabled(s, RecordPosted(t, stored))
    ensures Marks(RecordPostedStep(s, t, stored), promoted)
  {
    var s' := RecordPostedStep(s, t, stored);
    RecordPostedHolds(s, t, stored);
    if stored && s.tasks[t].id !in s.rows {
      FreshRowMarks(s, s', s.tasks[t].id, promoted);
    } else {
      SameRows(s, s', promoted);
    }
  }

  lemma RecordIngestMarks(s: State, t: TaskId, id: string, stored: bool, promoted: set<string>)
    requires Marks(s, promoted) && t in s.tasks && s.tasks[t].Checked? && id !in s.rows
    ensures Marks(RecordIngestStep(s, t, id, stored), promoted)
  {
    var s' := RecordIngestStep(s, t, id, stored);
    RecordIngestHolds(s, t, id, stored);
    if stored {
      FreshRowMarks(s, s', id, promoted);
    } else {
      SameRows(s, s', promoted);
    }
  }

  lemma RecordTriggerMarks(s: State, t: TaskId, id: string, stored: bool, promoted: set<string>)
    requires Marks(s, promoted) && t in s.tasks && s.tasks[t].TriggerReady? && id !in s.rows
    ensures Marks(RecordTriggerStep(s, t, id, stored), promoted)
  {
    var s' := RecordTriggerStep(s, t, id, stored);
    RecordTriggerHolds(s, t, id, stored);
    if stored {
      FreshRowMarks(s, s', id, promoted);
    } else {
      SameRows(s, s', promoted);
    }
  }

  lemma PromoteMarks(s: State, t: TaskId, promoted: set<string>)
    requires Marks(s, promoted) && Enabled(s, Promote(t))
    ensures Marks(PromoteStep(s, t), promoted + Landed(s, Promote(t)))
  {
    var s', id := PromoteStep(s, t), s.tasks[t].id;
    PromoteHolds(s, t);
    if id in s.rows {
      OneRow(s, s', id, promoted, promoted + {id});
    } else {
      SameRows(s, s', promoted);
      assert promoted + {} == promoted;
    }
  }

  /** A poller's row: it is not waiting, and if a sweeper holds it too, it was promoted. */
  lemma PollerWrites(s: State, t: TaskId, s': State, promoted: set<string>)
    requires Marks(s, promoted) && t in s.tasks && Polling(s.tasks[t]) && NoNewHolds(s, s')
    requires s.tasks[t].id in s'.rows && s'.rows == s.rows[s.tasks[t].id := s'.rows[s.tasks[t].id]]
    requires s'.rows[s.tasks[t].id].status != PreConfirmed
    ensures Marks(s', promoted)
  {
    var id := s.tasks[t].id;
    assert HoldsOk(s, promoted, s.tasks[t]);
    forall u | u in s.tasks && s.tasks[u].Swept? && id !in promoted ensures s.tasks[u].id != id {
      assert !Shared(s.tasks[u], s.tasks[t]);
    }
    OneRow(s, s', id, promoted, promoted);
  }

  lemma SweepMarks(s: State, t: TaskId, id: string, promoted: set<string>)
    requires Marks(s, promoted) && Enabled(s, Sweep(t, id))
    ensures Marks(Step(s, Sweep(t, id)), promoted)
  {
    var s' := Step(s, Sweep(t, id));
    forall u | u in s'.tasks ensures HoldsOk(s', promoted, s'.tasks[u]) {
      assert u != t ==> HoldsOk(s, promoted, s.tasks[u]);
    }
    forall v, u | v in s'.tasks && u in s'.tasks && Shared(s'.tasks[v], s'.tasks[u])
      ensures s'.tasks[v].id in promoted
    {
      assert u != t && HoldsOk(s, promoted, s.tasks[u]);
      assert v != t ==> Shared(s.tasks[v], s.tasks[u]);
    }
  }

  lemma PollMarks(s: State, t: TaskId, id: string, promoted: set<string>)
    requires Marks(s, promoted) && Enabled(s, Poll(t, id))
    ensures Marks(Step(s, Poll(t, id)), promoted)
  {
    var s' := Step(s, Poll(t, id));
    forall u | u in s'.tasks ensures HoldsOk(s', promoted, s'.tasks[u]) {
      assert u != t ==> HoldsOk(s, promoted, s.tasks[u]);
    }
    forall v, u | v in s'.tasks && u in s'.tasks && Shared(s'.tasks[v], s'.tasks[u])
      ensures s'.tasks[v].id in promoted
    {
      assert v != t && HoldsOk(s, promoted, s.tasks[v]);
      assert u != t ==> Shared(s.tasks[v], s.tasks[u]);
    }
  }

  lemma WriteDepthMarks(s: State, t: TaskId, promoted: set<string>)
    requires Marks(s, promoted) && t in s.tasks && s.tasks[t].AtHead?
    ensures Marks(WriteDepthStep(s, t), promoted)
  {
    assert HoldsOk(s, promoted, s.tasks[t]);
    WriteDepthHolds(s, t);
    PollerWrites(s, t, WriteDepthStep(s, t), promoted);
  }

  lemma QuietMarks(s: State, e: Event, promoted: set<string>)
    requires Marks(s, promoted) && Enabled(s, e)
    requires ClaimEvent(e) || e.Observe? || e.Invalidate? || e.Emit? || e.Stop?
    ensures Marks(Step(s, e), promoted)
  {
    StepHolds(s, e);
    if ClaimEvent(e) {
      ClaimHolds(s, e);
    } else if e.Observe? {
      ObserveHolds(s, e.t, e.head);
    } else if e.Invalidate? {
      InvalidateHolds(s, e.t, e.ok);
    }
    SameRows(s, Step(s, e), promoted);
  }

  lemma StepMarks(s: State, e: Event, promoted: set<string>)
    requires Marks(s, promoted) && Enabled(s, e)
    ensures Marks(Step(s, e), promoted + Landed(s, e))
  {
    if e.Promote? {
      PromoteMarks(s, e.t, promoted);
    } else {
      assert promoted + Landed(s, e) == promoted;
      match e
      case RecordPosted(t, stored) => RecordPostedMarks(s, t, stored, promoted);
      case Record(t, id, stored) =>
        if s.tasks[t].Checked? {
          RecordIngestMarks(s, t, id, stored, promoted);
        } else {
          RecordTriggerMarks(s, t, id, stored, promoted);
        }
      case Poll(t, id) => PollMarks(s, t, id, promoted);
      case Sweep(t, id) => SweepMarks(s, t, id, promoted);
      case MarkReorged(t, _) =>
        assert HoldsOk(s, promoted, s.tasks[t]);
        MarkReorgedHolds(s, t);
        PollerWrites(s, t, MarkReorgedStep(s, t), promoted);
      case WriteDepth(t) => WriteDepthMarks(s, t, promoted);
      case WriteStatus(t) =>
        assert HoldsOk(s, promoted, s.tasks[t]);
        WriteStatusHolds(s, t);
        PollerWrites(s, t, WriteStatusStep(s, t), promoted);
      case Expire(t) =>
        assert HoldsOk(s, promoted, s.tasks[t]);
        ExpireHolds(s, t);
        OneRow(s, ExpireStep(s, t), s.tasks[t].id, promoted, promoted);
      case _ => QuietMarks(s, e, promoted);
    }
  }

  lemma {:induction false} RunMarks(s: State, es: seq<Event>, promoted: set<string>)
    requires Marks(s, promoted) && ValidRun(s, es)
    ensures Marks(Run(s, es), Promotions(s, es, promoted))
    decreases |es|
  {
    if es != [] {
      StepMarks(s, es[0], promoted);
      RunMarks(Step(s, es[0]), es[1..], promoted + Landed(s, es[0]));
    }
  }

  // ----- runs in which the sweeper is undisturbed -----

  lemma StepSpared(s: State, e: Event, promoted: set<string>)
    requires Marks(s, promoted) && Spared(s, promoted) && Enabled(s, e) && CalmSweep(s, e)
    ensures Spared(Step(s, e), promoted + Landed(s, e))
  {
    if !e.Poll? && !e.Sweep? {
      StepHolds(s, e);
    }
  }

  lemma {:induction false} RunSpared(s: State, es: seq<Event>, promoted: set<string>)
    requires Marks(s, promoted) && Spared(s, promoted) && ValidRun(s, es) && CalmSweepRun(s, es)
    ensures Spared(Run(s, es), Promotions(s, es, promoted))
    decreases |es|
  {
    if es != [] {
      StepMarks(s, es[0], promoted);
      StepSpared(s, es[0], promoted);
      RunSpared(Step(s, es[0]), es[1..], promoted + Landed(s, es[0]));
    }
  }

  // ----- main results -----

  /** What an expiry overwrites: the row was promoted in this run and has not failed since. */
  predicate Overwrites(s: State, t: TaskId, promoted: set<string>)
    requires Enabled(s, Expire(t))
  {
    s.tasks[t].id in promoted && s.tasks[t].id in s.rows && s.rows[s.tasks[t].id].status != Failed
  }

  /**
   In every run an expiry meets a stored row, and overwrites a promotion exactly when the row's status at
   the write is neither pre-confirmed nor failed, which the write itself could check.
   */
  lemma ExpiryOverwritesIff(es: seq<Event>, t: TaskId)
    requires ValidRun(Init(), es) && Enabled(Run(Init(), es), Expire(t))
    ensures var s := Run(Init(), es);
      s.tasks[t].id in s.rows
      && (Overwrites(s, t, Promotions(Init(), es, {})) <==> Alive(s.rows[s.tasks[t].id]))
  {
    RunMarks(Init(), es, {});
    assert HoldsOk(Run(Init(), es), Promotions(Init(), es, {}), Run(Init(), es).tasks[t]);
  }

  /** If no promotion lands under a sweeper, no expiry ever meets a promoted row: each is waiting, or failed already. */
  lemma CalmExpirySpares(es: seq<Event>, t: TaskId)
    requires ValidRun(Init(), es) && CalmSweepRun(Init(), es) && Enabled(Run(Init(), es), Expire(t))
    ensures var s := Run(Init(), es);
      s.tasks[t].id in s.rows && !Alive(s.rows[s.tasks[t].id]) && s.tasks[t].id !in Promotions(Init(), es, {})
  {
    RunMarks(Init(), es, {});
    RunSpared(Init(), es, {});
    assert HoldsOk(Run(Init(), es), Promotions(Init(), es, {}), Run(Init(), es).tasks[t]);
  }

  /** No expiry that could come next would fail a promoted row. */
  predicate NextExpirySpares(s: State) {
    forall t :: t in s.tasks && s.tasks[t].Swept? ==> s.tasks[t].id in s.rows && !Alive(s.rows[s.tasks[t].id])
  }

  /**
   The condition is exact: after a calm run, the next event is calm if and only if after it no expiry
   can overwrite a promotion.
   */
  lemma CalmSweepIff(es: seq<Event>, e: Event)
    requires ValidRun(Init(), es) && CalmSweepRun(Init(), es) && Enabled(Run(Init(), es), e)
    ensures CalmSweep(Run(Init(), es), e) <==> NextExpirySpares(Step(Run(Init(), es), e))
  {
    var s, promoted := Run(Init(), es), Promotions(Init(), es, {});
    RunMarks(Init(), es, {});
    RunSpared(Init(), es, {});
    if CalmSweep(s, e) {
      StepMarks(s, e, promoted);
      StepSpared(s, e, promoted);
      forall t | t in Step(s, e).tasks && Step(s, e).tasks[t].Swept?
        ensures Step(s, e).tasks[t].id in Step(s, e).rows && !Alive(Step(s, e).rows[Step(s, e).tasks[t].id])
      {
        assert HoldsOk(Step(s, e), promoted + Landed(s, e), Step(s, e).tasks[t]);
      }
    } else {
      var t :| t in s.tasks && s.tasks[t].Swept? && s.tasks[t].id in Landed(s, e);
      assert Step(s, e) == PromoteStep(s, e.t);
      assert Step(s, e).tasks[t] == s.tasks[t] && Alive(Step(s, e).rows[s.tasks[t].id]);
    }
  }
}
