/** What a row's status says to a reader of the API. */
module LifecycleStatus {
  import opened Wrappers
  import opened Finality
  import opened Tables
  import opened Lifecycle
  import opened LifecycleSafety

  /** The execution state the API derives from the status column; only `finalized` is safe. */
  function ExecutionOfStatus(status: Status): (ExecutionState, bool, TrustSource) {
    match status
    case PreConfirmed => (ProvisionalState, false, Facilitator)
    case Pending => (ConfirmedState, false, Onchain)
    case Confirmed => (ConfirmedState, false, Onchain)
    case Finalized => (FinalizedState, true, Onchain)
    case Reorged => (ReorgedState, false, Onchain)
    case Failed => (ReorgedState, false, Onchain)
  }

  predicate Polling(task: Task) {
    task.Polled? || task.AtHead? || task.Deepened?
  }

  /** A poll that will not finalize its row: it only confirms it, or its head is too shallow. */
  predicate Harmless(task: Task)
    requires Polling(task)
  {
    task.row.status == Pending
    || (task.AtHead? && Confirmations(task.head, task.row.block) < DefaultDepth(task.row.chain))
  }

  /** A block that is buried at every head that buries the snapshot's, or is already. */
  ghost predicate Covered(observed: Heads, row: Row, block: nat) {
    block <= row.block || Buried(observed, row.chain, block, DefaultDepth(row.chain))
  }

  /** No promotion moves a row past the snapshot of a poll that may finalize it, to a block not buried yet. */
  ghost predicate Calm(s: State, e: Event)
    requires Enabled(s, e)
  {
    e.Promote? ==> forall t :: t in s.tasks && MayFinalize(s.tasks[t], s.tasks[e.t].id) ==>
      Covered(s.observed, s.tasks[t].row, s.tasks[e.t].transfer.block)
  }

  predicate MayFinalize(task: Task, id: string) {
    Polling(task) && task.id == id && !Harmless(task)
  }

  ghost predicate CalmRun(s: State, es: seq<Event>)
    requires ValidRun(s, es)
    decreases |es|
  {
    es == [] || (Calm(s, es[0]) && CalmRun(Step(s, es[0]), es[1..]))
  }

  /** A row is on the chain its snapshots show, and covered by those that may finalize it. */
  ghost predicate Current(s: State, task: Task) {
    Polling(task) ==>
      task.id in s.rows && s.rows[task.id].chain == task.row.chain
      && (!Harmless(task) ==> Covered(s.observed, task.row, s.rows[task.id].block))
  }

  ghost predicate FinalBuried(s: State, row: Row) {
    ExecutionOfStatus(row.status).1 ==> Buried(s.observed, row.chain, row.block, DefaultDepth(row.chain))
  }

  ghost predicate StatusOk(s: State) {
    (forall t :: t in s.tasks ==> Current(s, s.tasks[t]))
    && (forall id :: id in s.rows ==> FinalBuried(s, s.rows[id]))
  }

  lemma MoreHeadsBuried(s: State, s': State)
    requires s.observed <= s'.observed
    ensures forall chain, block, bound ::
      Buried(s.observed, chain, block, bound) ==> Buried(s'.observed, chain, block, bound)
  {
    forall chain, block, bound | Buried(s.observed, chain, block, bound)
      ensures Buried(s'.observed, chain, block, bound)
    {
      var h :| (chain, h) in s.observed && h - block >= bound;
      assert (chain, h) in s'.observed;
    }
  }

  /** Steps that keep the rows: snapshots stay current. */
  lemma SameRowsOk(s: State, s': State)
    requires StatusOk(s) && s'.rows == s.rows && s.observed <= s'.observed
    requires forall t :: t in s'.tasks ==> (t in s.tasks && s'.tasks[t] == s.tasks[t]) || Current(s, s'.tasks[t])
    ensures StatusOk(s')
  {
    MoreHeadsBuried(s, s');
    forall t | t in s'.tasks ensures Current(s', s'.tasks[t]) {
      if t in s.tasks && s'.tasks[t] == s.tasks[t] {
        assert Current(s, s.tasks[t]);
      }
    }
    forall id | id in s'.rows ensures FinalBuried(s', s'.rows[id]) {
      assert FinalBuried(s, s.rows[id]);
    }
  }

  /** Every snapshot of the new state is one of the old. */
  predicate KeepsSnapshots(s: State, s': State) {
    forall t :: t in s'.tasks && Polling(s'.tasks[t]) ==> t in s.tasks && SameSnapshot(s.tasks[t], s'.tasks[t])
  }

  predicate SameSnapshot(task: Task, next: Task) {
    Polling(task) && Polling(next) && next.id == task.id && next.row == task.row
    && (Harmless(task) ==> Harmless(next))
  }

  lemma PutKeeps(s: State, s1: State, t: TaskId, task: Task)
    requires s1.tasks == s.tasks && (Polling(task) ==> t in s.tasks && SameSnapshot(s.tasks[t], task))
    ensures KeepsSnapshots(s, Put(s1, t, task))
  {}

  lemma DropKeeps(s: State, s1: State, t: TaskId)
    requires s1.tasks == s.tasks
    ensures KeepsSnapshots(s, Drop(s1, t))
  {}

  lemma SnapshotsKeptOk(s: State, s': State)
    requires StatusOk(s) && s'.rows == s.rows && s.observed <= s'.observed && KeepsSnapshots(s, s')
    ensures StatusOk(s')
  {
    forall t | t in s'.tasks ensures Current(s, s'.tasks[t]) {
      if Polling(s'.tasks[t]) {
        assert Current(s, s.tasks[t]);
      }
    }
    SameRowsOk(s, s');
  }

  /** What a row must be for the snapshots of it. */
  ghost predicate Respects(s: State, id: string, row: Row) {
    forall t :: t in s.tasks && Polling(s.tasks[t]) && s.tasks[t].id == id ==>
      row.chain == s.tasks[t].row.chain
      && (!Harmless(s.tasks[t]) ==> Covered(s.observed, s.tasks[t].row, row.block))
  }

  /** Steps that write one row: its chain is kept, and the new block is covered. */
  lemma OneRowOk(s: State, s': State, id: string)
    requires StatusOk(s) && s'.observed == s.observed
    requires id in s'.rows && s'.rows == s.rows[id := s'.rows[id]] && FinalBuried(s, s'.rows[id])
    requires Respects(s, id, s'.rows[id])
    requires KeepsSnapshots(s, s')
    ensures StatusOk(s')
  {
    forall t | t in s'.tasks ensures Current(s', s'.tasks[t]) {
      if Polling(s'.tasks[t]) {
        assert Current(s, s.tasks[t]);
      }
    }
    forall i | i in s'.rows ensures FinalBuried(s', s'.rows[i]) {
      if i != id {
        assert FinalBuried(s, s.rows[i]);
      }
    }
  }

  /** A write that keeps chain and block respects every snapshot of the row. */
  lemma RowKept(s: State, id: string)
    requires StatusOk(s) && id in s.rows
    ensures Respects(s, id, s.rows[id])
  {
    forall t | t in s.tasks && Polling(s.tasks[t]) && s.tasks[t].id == id
      ensures s.rows[id].chain == s.tasks[t].row.chain
      ensures !Harmless(s.tasks[t]) ==> Covered(s.observed, s.tasks[t].row, s.rows[id].block)
    {
      assert Current(s, s.tasks[t]);
    }
  }

  lemma DeliverStatus(s: State, t: TaskId, transfer: Transfer)
    requires StatusOk(s) && t !in s.tasks
    ensures StatusOk(DeliverStep(s, t, transfer))
  {
    SameRowsOk(s, DeliverStep(s, t, transfer));
  }

  lemma DeliverTriggerStatus(s: State, t: TaskId, transfer: Transfer)
    requires StatusOk(s) && t !in s.tasks
    ensures StatusOk(TriggerStep(s, t, transfer))
  {
    SameRowsOk(s, TriggerStep(s, t, transfer));
  }

  lemma ObserveStatus(s: State, t: TaskId, head: Option<int>)
    requires StatusOk(s) && Enabled(s, Observe(t, head))
    ensures StatusOk(ObserveStep(s, t, head))
  {
    var seen := Seen(s, ChainOf(s.tasks[t]), Asked(s.tasks[t], head));
    PutKeeps(s, seen, t, AfterObserve(s.tasks[t], head));
    SnapshotsKeptOk(s, ObserveStep(s, t, head));
  }

  lemma FreshRow(s: State, id: string)
    requires StatusOk(s) && id !in s.rows
    ensures forall t :: t in s.tasks && Polling(s.tasks[t]) ==> s.tasks[t].id != id
  {
    forall t | t in s.tasks && Polling(s.tasks[t]) ensures s.tasks[t].id != id {
      assert Current(s, s.tasks[t]);
    }
  }

  lemma RecordPostedStatus(s: State, t: TaskId, stored: bool)
    requires StatusOk(s) && t in s.tasks && s.tasks[t].Posted?
    ensures StatusOk(RecordPostedStep(s, t, stored))
  {
    var s' := RecordPostedStep(s, t, stored);
    if stored && s.tasks[t].id !in s.rows {
      FreshRow(s, s.tasks[t].id);
      OneRowOk(s, s', s.tasks[t].id);
    } else {
      SameRowsOk(s, s');
    }
  }

  lemma RecordIngestStatus(s: State, t: TaskId, id: string, stored: bool)
    requires StatusOk(s) && t in s.tasks && s.tasks[t].Checked? && id !in s.rows
    ensures StatusOk(RecordIngestStep(s, t, id, stored))
  {
    var s' := RecordIngestStep(s, t, id, stored);
    if stored {
      FreshRow(s, id);
      OneRowOk(s, s', id);
    } else {
      SameRowsOk(s, s');
    }
  }

  lemma RecordTriggerStatus(s: State, t: TaskId, id: string, stored: bool)
    requires Safe(s) && StatusOk(s) && t in s.tasks && s.tasks[t].TriggerReady? && id !in s.rows
    ensures StatusOk(RecordTriggerStep(s, t, id, stored))
  {
    var s' := RecordTriggerStep(s, t, id, stored);
    var TriggerReady(transfer, finality) := s.tasks[t];
    assert LifecycleSafety.TaskOk(s, s.tasks[t]);
    if TriggerStatus(finality) == Finalized {
      RealIsBuried(s.observed, transfer.chain, transfer.block, finality.value.confirmations,
                   DefaultDepth(transfer.chain));
    }
    if stored {
      FreshRow(s, id);
      OneRowOk(s, s', id);
    } else {
      SameRowsOk(s, s');
    }
  }

  lemma PromoteStatus(s: State, t: TaskId)
    requires StatusOk(s) && Enabled(s, Promote(t)) && Calm(s, Promote(t))
    ensures StatusOk(PromoteStep(s, t))
  {
    var Correlated(id, transfer) := s.tasks[t];
    if id in s.rows {
      var row := PromotedRow(s.rows[id], transfer);
      PutKeeps(s, SetRow(s, id, row), t, Promoted(id, transfer));
      forall u | u in s.tasks && Polling(s.tasks[u]) && s.tasks[u].id == id
        ensures row.chain == s.tasks[u].row.chain
        ensures !Harmless(s.tasks[u]) ==> Covered(s.observed, s.tasks[u].row, row.block)
      {
        assert Current(s, s.tasks[u]) && (!Harmless(s.tasks[u]) ==> MayFinalize(s.tasks[u], id));
      }
      OneRowOk(s, PromoteStep(s, t), id);
    } else {
      DropKeeps(s, s, t);
      SnapshotsKeptOk(s, PromoteStep(s, t));
    }
  }

  lemma MarkReorgedStatus(s: State, t: TaskId)
    requires StatusOk(s) && t in s.tasks && s.tasks[t].AtHead?
    ensures StatusOk(MarkReorgedStep(s, t))
  {
    var AtHead(id, row, _) := s.tasks[t];
    assert Current(s, s.tasks[t]);
    PutKeeps(s, SetStatus(s, id, Reorged), t, ReorgMarked(id, row));
    RowKept(s, id);
    OneRowOk(s, MarkReorgedStep(s, t), id);
  }

  lemma WriteDepthStatus(s: State, t: TaskId)
    requires StatusOk(s) && t in s.tasks && s.tasks[t].AtHead?
    ensures StatusOk(WriteDepthStep(s, t))
  {
    var AtHead(id, row, head) := s.tasks[t];
    var s1 := SetDepth(s, id, Confirmations(head, row.block));
    assert Current(s, s.tasks[t]) && FinalBuried(s, s.rows[id]);
    if Confirmations(head, row.block) >= DefaultDepth(row.chain) {
      PutKeeps(s, s1, t, Deepened(id, row, head));
    } else {
      DropKeeps(s, s1, t);
    }
    RowKept(s, id);
    OneRowOk(s, WriteDepthStep(s, t), id);
  }

  /** The head that buries a snapshot's block buries every block covered by it. */
  lemma CoveredBuried(observed: Heads, row: Row, block: nat, head: int)
    requires Covered(observed, row, block) && (row.chain, head) in observed
    requires Confirmations(head, row.block) >= DefaultDepth(row.chain)
    ensures Buried(observed, row.chain, block, DefaultDepth(row.chain))
  {
    if block <= row.block {
      assert head - block >= DefaultDepth(row.chain);
    }
  }

  lemma WriteStatusStatus(s: State, t: TaskId)
    requires Safe(s) && StatusOk(s) && t in s.tasks && s.tasks[t].Deepened?
    ensures StatusOk(WriteStatusStep(s, t))
  {
    var Deepened(id, row, head) := s.tasks[t];
    assert Current(s, s.tasks[t]) && LifecycleSafety.TaskOk(s, s.tasks[t]);
    if row.status != Pending {
      CoveredBuried(s.observed, row, s.rows[id].block, head);
    }
    PutKeeps(s, SetStatus(s, id, NextStatus(row.status)), t, PollerReady(row));
    RowKept(s, id);
    OneRowOk(s, WriteStatusStep(s, t), id);
  }

  lemma ExpireStatus(s: State, t: TaskId)
    requires StatusOk(s) && t in s.tasks && s.tasks[t].Swept?
    ensures StatusOk(ExpireStep(s, t))
  {
    var Swept(id, row) := s.tasks[t];
    PutKeeps(s, SetStatus(s, id, Failed), t, Ready(Reconstruct(row), PaymentFailed, None, Background));
    if id in s.rows {
      RowKept(s, id);
      OneRowOk(s, ExpireStep(s, t), id);
    } else {
      SnapshotsKeptOk(s, ExpireStep(s, t));
    }
  }

  lemma OtherStatus(s: State, e: Event)
    requires StatusOk(s) && Enabled(s, e) && (e.Poll? || e.Sweep? || e.Invalidate? || e.Emit? || e.Stop?)
    ensures StatusOk(Step(s, e))
  {
    SameRowsOk(s, Step(s, e));
  }

  lemma StepStatus(s: State, e: Event)
    requires Safe(s) && StatusOk(s) && Enabled(s, e) && Calm(s, e)
    ensures StatusOk(Step(s, e))
  {
    match e
    case Post(t, transfer, id) => SameRowsOk(s, PostStep(s, t, transfer, id));
    case Deliver(t, transfer) => DeliverStatus(s, t, transfer);
    case DeliverTrigger(t, transfer) => DeliverTriggerStatus(s, t, transfer);
    case Observe(t, head) => ObserveStatus(s, t, head);
    case RecordPosted(t, stored) => RecordPostedStatus(s, t, stored);
    case Record(t, id, stored) =>
      if s.tasks[t].Checked? {
        RecordIngestStatus(s, t, id, stored);
      } else {
        RecordTriggerStatus(s, t, id, stored);
      }
    case Promote(t) => PromoteStatus(s, t);
    case MarkReorged(t, _) => MarkReorgedStatus(s, t);
    case WriteDepth(t) => WriteDepthStatus(s, t);
    case WriteStatus(t) => WriteStatusStatus(s, t);
    case Expire(t) => ExpireStatus(s, t);
    case _ => OtherStatus(s, e);
  }

  lemma {:induction false} RunStatus(s: State, es: seq<Event>)
    requires Safe(s) && StatusOk(s) && ValidRun(s, es) && CalmRun(s, es)
    ensures StatusOk(Run(s, es))
    decreases |es|
  {
    if es != [] {
      StepSafe(s, es[0]);
      StepStatus(s, es[0]);
      RunStatus(Step(s, es[0]), es[1..]);
    }
  }

  /** If no promotion moves a row past a poll that may finalize it, every row the API calls safe is buried. */
  lemma SafeStatusIsBuried(es: seq<Event>, id: string)
    requires ValidRun(Init(), es) && CalmRun(Init(), es) && id in Run(Init(), es).rows
    requires ExecutionOfStatus(Run(Init(), es).rows[id].status).1
    ensures var s := Run(Init(), es);
      Buried(s.observed, s.rows[id].chain, s.rows[id].block, DefaultDepth(s.rows[id].chain))
  {
    RunStatus(Init(), es);
    assert FinalBuried(Run(Init(), es), Run(Init(), es).rows[id]);
  }

  // ----- the condition is exact -----

  /** One poller goes on: it asks for a head and writes its row. */
  predicate Alone(e: Event, t: TaskId) {
    (e.Observe? || e.WriteDepth? || e.WriteStatus?) && e.t == t
  }

  predicate AloneRun(s: State, es: seq<Event>, t: TaskId) {
    ValidRun(s, es) && forall i :: 0 <= i < |es| ==> Alone(es[i], t)
  }

  ghost predicate Truthful(s: State) {
    forall id :: id in s.rows ==> FinalBuried(s, s.rows[id])
  }

  /** Whatever this poller does by itself, no row is called safe that is not buried. */
  ghost predicate SparedBy(s: State, t: TaskId) {
    forall es :: AloneRun(s, es, t) ==> Truthful(Run(s, es))
  }

  lemma {:induction false} AloneIsCalm(s: State, es: seq<Event>, t: TaskId)
    requires AloneRun(s, es, t)
    ensures CalmRun(s, es)
    decreases |es|
  {
    if es != [] {
      assert Alone(es[0], t);
      AloneIsCalm(Step(s, es[0]), es[1..], t);
    }
  }

  lemma SparedAfter(s: State, e: Event, t: TaskId)
    requires SparedBy(s, t) && Enabled(s, e) && Alone(e, t)
    ensures SparedBy(Step(s, e), t)
  {
    forall es | AloneRun(Step(s, e), es, t) ensures Truthful(Run(Step(s, e), es)) {
      var all := [e] + es;
      assert all[0] == e && all[1..] == es;
      assert AloneRun(s, all, t);
    }
  }

  /** The row of a snapshot is at a block that no head seen so far buries. */
  ghost predicate Exposed(s: State, id: string, chain: Chain) {
    id in s.rows && s.rows[id].chain == chain && !Buried(s.observed, chain, s.rows[id].block, DefaultDepth(chain))
  }

  lemma DeepenedHarms(s: State, t: TaskId)
    requires t in s.tasks && s.tasks[t].Deepened? && !Harmless(s.tasks[t])
    requires Exposed(s, s.tasks[t].id, s.tasks[t].row.chain)
    ensures !SparedBy(s, t)
  {
    var s', id := WriteStatusStep(s, t), s.tasks[t].id;
    assert !FinalBuried(s', s'.rows[id]);
    if SparedBy(s, t) {
      SparedAfter(s, WriteStatus(t), t);
      assert AloneRun(s', [], t);
    }
  }

  lemma AtHeadHarms(s: State, t: TaskId)
    requires t in s.tasks && s.tasks[t].AtHead? && !Harmless(s.tasks[t])
    requires Exposed(s, s.tasks[t].id, s.tasks[t].row.chain)
    ensures !SparedBy(s, t)
  {
    DeepenedHarms(WriteDepthStep(s, t), t);
    if SparedBy(s, t) {
      SparedAfter(s, WriteDepth(t), t);
    }
  }

  /** The first head that buries the snapshot's block does not bury a later one. */
  lemma PolledHarms(s: State, t: TaskId)
    requires t in s.tasks && s.tasks[t].Polled? && !Harmless(s.tasks[t])
    requires Exposed(s, s.tasks[t].id, s.tasks[t].row.chain)
    requires s.rows[s.tasks[t].id].block > s.tasks[t].row.block
    ensures !SparedBy(s, t)
  {
    var Polled(id, row) := s.tasks[t];
    var head := row.block + DefaultDepth(row.chain);
    var s' := ObserveStep(s, t, Some(head));
    assert s'.tasks[t] == AtHead(id, row, head) && s'.rows == s.rows;
    assert s'.observed == s.observed + {(row.chain, head)};
    AtHeadHarms(s', t);
    if SparedBy(s, t) {
      SparedAfter(s, Observe(t, Some(head)), t);
    }
  }

  lemma UncalmHarms(s: State, e: Event)
    requires StatusOk(s) && Enabled(s, e) && !Calm(s, e)
    ensures exists t :: !SparedBy(Step(s, e), t)
  {
    var id, block := s.tasks[e.t].id, s.tasks[e.t].transfer.block;
    var t :| t in s.tasks && MayFinalize(s.tasks[t], id) && !Covered(s.observed, s.tasks[t].row, block);
    assert Current(s, s.tasks[t]);
    var s' := PromoteStep(s, e.t);
    assert s'.tasks[t] == s.tasks[t] && s'.rows[id].block == block && s'.observed == s.observed;
    if s'.tasks[t].Polled? {
      PolledHarms(s', t);
    } else if s'.tasks[t].AtHead? {
      AtHeadHarms(s', t);
    } else {
      DeepenedHarms(s', t);
    }
    assert Step(s, e) == s' && !SparedBy(s', t);
  }

  /**
   After a calm run the next event is calm if and only if afterwards no poller alone, by asking for a head
   and writing its row, brings about a row that the API calls safe and that is not buried.
   */
  lemma CalmIff(es: seq<Event>, e: Event)
    requires ValidRun(Init(), es) && CalmRun(Init(), es) && Enabled(Run(Init(), es), e)
    ensures Calm(Run(Init(), es), e) <==> forall t :: SparedBy(Step(Run(Init(), es), e), t)
  {
    var s := Run(Init(), es);
    RunStatus(Init(), es);
    RunSafe(Init(), es);
    if Calm(s, e) {
      StepStatus(s, e);
      StepSafe(s, e);
      forall t, cont | AloneRun(Step(s, e), cont, t) ensures Truthful(Run(Step(s, e), cont)) {
        AloneIsCalm(Step(s, e), cont, t);
        RunStatus(Step(s, e), cont);
      }
    } else {
      UncalmHarms(s, e);
    }
  }

  lemma {:induction false} RunSafe(s: State, es: seq<Event>)
    requires Safe(s) && ValidRun(s, es)
    ensures Safe(Run(s, es))
    decreases |es|
  {
    if es != [] {
      StepSafe(s, es[0]);
      RunSafe(Step(s, es[0]), es[1..]);
    }
  }
}
