/** No payload tells a consumer to act on a block that was not deep enough at some observed head. */
module LifecycleSafety {
  import opened Wrappers
  import opened Finality
  import opened Tables
  import opened Lifecycle
  import opened Arith
  import Dispatch

  type Heads = set<(Chain, int)>

  /** Some observed head was at least `bound` blocks past the block. */
  ghost predicate Buried(observed: Heads, chain: Chain, block: nat, bound: int) {
    exists h :: (chain, h) in observed && h - block >= bound
  }

  /** The depth is nothing, or a depth the block really had at an observed head. */
  predicate RealDepth(observed: Heads, chain: Chain, block: nat, depth: nat) {
    depth == 0 || (chain, block + depth) in observed
  }

  /** The depth behind a payload: finalization ignores the endpoint's own depth, everything else applies it. */
  function Required(p: Payload): (depth: nat)
    ensures depth >= 1
    ensures depth >= Min(DefaultDepth(p.transfer.chain), EffectiveDepth(p.endpoint, p.transfer.chain))
  {
    if p.eventType == PaymentFinalized then DefaultDepth(p.transfer.chain)
    else EffectiveDepth(p.endpoint, p.transfer.chain)
  }

  /** What the safety claim promises of one payload. */
  ghost predicate Justified(observed: Heads, p: Payload) {
    p.execution.safe ==> Buried(observed, p.transfer.chain, p.transfer.block, Required(p))
  }

  /** A pending row's stored depth is a real past depth of its own block. */
  predicate RowOk(observed: Heads, row: Row) {
    row.status == Pending ==> RealDepth(observed, row.chain, row.block, row.depth)
  }

  predicate CheckOk(observed: Heads, transfer: Transfer, finality: Option<FinalityStatus>) {
    finality.Some? ==>
      finality.value.required == DefaultDepth(transfer.chain)
      && finality.value.isFinalized == (finality.value.confirmations >= finality.value.required)
      && RealDepth(observed, transfer.chain, transfer.block, finality.value.confirmations)
  }

  /** A snapshot taken by the poller: as long as the row is pending, it has the snapshot's block. */
  predicate SnapshotOk(s: State, id: string, row: Row) {
    RowOk(s.observed, row)
    && (id in s.rows && s.rows[id].status == Pending ==>
          s.rows[id].chain == row.chain && s.rows[id].block == row.block)
  }

  /** A dispatch about to be made; a promotion that is not yet final announces no finality. */
  ghost predicate ReadyOk(
    observed: Heads, transfer: Transfer, eventType: EventType, finality: Option<FinalityStatus>, origin: Origin)
  {
    eventType != TriggerFinalized
    && (finality.Some? ==> finality.value.required == DefaultDepth(transfer.chain))
    && (if eventType == PaymentFinalized
        then Buried(observed, transfer.chain, transfer.block, DefaultDepth(transfer.chain))
        else finality.Some? ==> RealDepth(observed, transfer.chain, transfer.block, finality.value.confirmations))
    && (origin == Promotion && eventType != PaymentFinalized && finality.Some? ==>
          finality.value.confirmations < finality.value.required)
  }

  ghost predicate TaskOk(s: State, task: Task) {
    match task
    case Checked(transfer, finality) => CheckOk(s.observed, transfer, finality)
    case TriggerReady(transfer, finality) => CheckOk(s.observed, transfer, finality)
    case Polled(id, row) => id in s.rows && SnapshotOk(s, id, row)
    case AtHead(id, row, head) => id in s.rows && SnapshotOk(s, id, row) && (row.chain, head) in s.observed
    case Deepened(id, row, head) =>
      id in s.rows && SnapshotOk(s, id, row) && (row.chain, head) in s.observed
      && Confirmations(head, row.block) >= DefaultDepth(row.chain)
    case Ready(transfer, eventType, finality, origin) => ReadyOk(s.observed, transfer, eventType, finality, origin)
    case _ => true
  }

  ghost predicate Safe(s: State) {
    (forall id :: id in s.rows ==> RowOk(s.observed, s.rows[id]))
    && (forall t :: t in s.tasks ==> TaskOk(s, s.tasks[t]))
    && (forall p :: p in s.payloads ==> Justified(s.observed, p))
  }

  // ----- one payload -----

  lemma RealIsBuried(observed: Heads, chain: Chain, block: nat, depth: nat, bound: nat)
    requires RealDepth(observed, chain, block, depth) && depth >= bound >= 1
    ensures Buried(observed, chain, block, bound)
  {
    assert (chain, block + depth) in observed && (block + depth) - block >= bound;
  }

  lemma Weaken(observed: Heads, chain: Chain, block: nat, bound: int, lower: int)
    requires Buried(observed, chain, block, bound) && lower <= bound
    ensures Buried(observed, chain, block, lower)
  {
    var h :| (chain, h) in observed && h - block >= bound;
    assert (chain, h) in observed && h - block >= lower;
  }

  /** Both payload builders and the hand-built trigger payload keep the promise. */
  lemma EmissionJustified(s: State, task: Task, ep: Endpoint, channel: Channel)
    requires TaskOk(s, task) && CanEmit(task, ep, channel)
    ensures Justified(s.observed, PayloadOf(task, ep, channel))
  {
    var p := PayloadOf(task, ep, channel);
    if p.execution.safe && p.eventType != PaymentFinalized {
      RealIsBuried(s.observed, p.transfer.chain, p.transfer.block, task.finality.value.confirmations, Required(p));
    }
  }

  // ----- elementary updates keep the invariant -----

  lemma PutSafe(s: State, t: TaskId, task: Task)
    requires Safe(s) && TaskOk(s, task)
    ensures Safe(Put(s, t, task))
  {
    var s' := Put(s, t, task);
    forall u | u in s'.tasks ensures TaskOk(s', s'.tasks[u]) {
      assert TaskOk(s, s'.tasks[u]);
    }
  }

  lemma DropSafe(s: State, t: TaskId)
    requires Safe(s)
    ensures Safe(Drop(s, t))
  {
    var s' := Drop(s, t);
    forall u | u in s'.tasks ensures TaskOk(s', s'.tasks[u]) {
      assert TaskOk(s, s.tasks[u]);
    }
  }

  lemma MoreHeads(s: State, s': State, task: Task)
    requires TaskOk(s, task) && s.observed <= s'.observed && s.rows == s'.rows
    ensures TaskOk(s', task)
  {
    if task.Ready? && task.eventType == PaymentFinalized {
      var transfer := task.transfer;
      var h :| (transfer.chain, h) in s.observed && h - transfer.block >= DefaultDepth(transfer.chain);
      assert (transfer.chain, h) in s'.observed;
    }
  }

  lemma SeeSafe(s: State, chain: Chain, head: int)
    requires Safe(s)
    ensures Safe(See(s, chain, head))
  {
    var s' := See(s, chain, head);
    forall t | t in s'.tasks ensures TaskOk(s', s'.tasks[t]) {
      MoreHeads(s, s', s.tasks[t]);
    }
    forall p | p in s'.payloads ensures Justified(s'.observed, p) {
      if p.execution.safe {
        var h :| (p.transfer.chain, h) in s.observed && h - p.transfer.block >= Required(p);
        assert (p.transfer.chain, h) in s'.observed;
      }
    }
  }

  /** A row may be rewritten if a pending result keeps a pending row's block. */
  lemma SetRowSafe(s: State, id: string, row: Row)
    requires Safe(s) && id in s.rows && RowOk(s.observed, row)
    requires row.status == Pending ==>
      s.rows[id].status == Pending && row.chain == s.rows[id].chain && row.block == s.rows[id].block
    ensures Safe(SetRow(s, id, row))
  {
    var s' := SetRow(s, id, row);
    forall t | t in s'.tasks ensures TaskOk(s', s'.tasks[t]) {
      assert TaskOk(s, s.tasks[t]);
    }
  }

  lemma InsertSafe(s: State, t: TaskId, id: string, row: Row)
    requires Safe(s) && id !in s.rows && RowOk(s.observed, row)
    ensures Safe(InsertRow(s, t, id, row))
  {
    var s' := InsertRow(s, t, id, row);
    forall u | u in s'.tasks ensures TaskOk(s', s'.tasks[u]) {
      assert TaskOk(s, s.tasks[u]);
    }
  }

  /** Changes of the nonce table and of the history do not touch what safety speaks of. */
  lemma BookkeepingSafe(s: State, s': State)
    requires Safe(s)
    requires s'.rows == s.rows && s'.tasks == s.tasks && s'.observed == s.observed && s'.payloads == s.payloads
    ensures Safe(s')
  {
    forall t | t in s'.tasks ensures TaskOk(s', s'.tasks[t]) {
      assert TaskOk(s, s.tasks[t]);
    }
  }

  // ----- every step keeps the invariant -----

  lemma DeliverSafe(s: State, t: TaskId, transfer: Transfer)
    requires Safe(s)
    ensures Safe(DeliverStep(s, t, transfer))
  {
    var s' := Claim(s, t, KeyOf(transfer), AfterClaim(s.nonces, KeyOf(transfer), None, GoldskyPath));
    BookkeepingSafe(s, s');
    match AnswerFor(s.nonces, KeyOf(transfer)) {
      case Fresh => PutSafe(s', t, Delivered(transfer));
      case Duplicate(Some(id), FacilitatorPath) => PutSafe(s', t, Correlated(id, transfer));
      case Duplicate(_, _) =>
    }
  }

  lemma SeenSafe(s: State, chain: Chain, block: nat, head: Option<int>)
    requires Safe(s)
    ensures Safe(Seen(s, chain, head))
    ensures head.Some? ==> RealDepth(Seen(s, chain, head).observed, chain, block, Confirmations(head.value, block))
  {
    if head.Some? {
      SeeSafe(s, chain, head.value);
    }
  }

  lemma AfterObserveOk(s: State, task: Task, head: Option<int>, block: nat)
    requires Observing(task) && (task.Polled? ==> head.Some?) && TaskOk(s, task)
    requires block == if task.Polled? then task.row.block else task.transfer.block
    requires Asked(task, head).Some? ==>
      (ChainOf(task), Asked(task, head).value) in s.observed
      && RealDepth(s.observed, ChainOf(task), block, Confirmations(Asked(task, head).value, block))
    ensures TaskOk(s, AfterObserve(task, head))
  {
    if task.Promoted? && PromotionType(Checks(task.transfer, head)) == PaymentFinalized {
      RealIsBuried(s.observed, ChainOf(task), block, Confirmations(head.value, block), DefaultDepth(ChainOf(task)));
    }
  }

  lemma ObserveSafe(s: State, t: TaskId, head: Option<int>)
    requires Safe(s) && Enabled(s, Observe(t, head))
    ensures Safe(ObserveStep(s, t, head))
  {
    var task := s.tasks[t];
    var block := if task.Polled? then task.row.block else task.transfer.block;
    var seen := Seen(s, ChainOf(task), Asked(task, head));
    assert TaskOk(seen, task) by {
      assert TaskOk(s, task);
      MoreHeads(s, seen, task);
    }
    SeenSafe(s, ChainOf(task), block, Asked(task, head));
    AfterObserveOk(seen, task, head, block);
    PutSafe(seen, t, AfterObserve(task, head));
  }

  lemma RecordPostedSafe(s: State, t: TaskId, stored: bool)
    requires Safe(s) && t in s.tasks && s.tasks[t].Posted?
    ensures Safe(RecordPostedStep(s, t, stored))
  {
    var Posted(id, transfer) := s.tasks[t];
    var row, ready := RowFor(transfer, PreConfirmed, 0), Ready(transfer, PaymentPreConfirmed, None, Ingest);
    PutSafe(s, t, ready);
    if stored && id !in s.rows {
      InsertSafe(s, t, id, row);
      PutSafe(InsertRow(s, t, id, row), t, ready);
    }
  }

  lemma RecordTriggerSafe(s: State, t: TaskId, id: string, stored: bool)
    requires Safe(s) && t in s.tasks && s.tasks[t].TriggerReady? && id !in s.rows
    ensures Safe(RecordTriggerStep(s, t, id, stored))
  {
    var TriggerReady(transfer, finality) := s.tasks[t];
    var row := RowFor(transfer, TriggerStatus(finality), StoredDepth(finality));
    DropSafe(s, t);
    InsertSafe(s, t, id, row);
    DropSafe(InsertRow(s, t, id, row), t);
  }

  /** A status that is not pending may be written at any time. */
  lemma StatusSafe(s: State, id: string, status: Status)
    requires Safe(s) && status != Pending
    ensures Safe(SetStatus(s, id, status))
  {
    if id in s.rows {
      SetRowSafe(s, id, s.rows[id].(status := status));
    }
  }

  lemma PromoteSafe(s: State, t: TaskId)
    requires Safe(s) && t in s.tasks && s.tasks[t].Correlated?
    ensures Safe(PromoteStep(s, t))
  {
    var Correlated(id, transfer) := s.tasks[t];
    DropSafe(s, t);
    if id in s.rows {
      var row := PromotedRow(s.rows[id], transfer);
      SetRowSafe(s, id, row);
      PutSafe(SetRow(s, id, row), t, Promoted(id, transfer));
    }
  }

  lemma WriteDepthSafe(s: State, t: TaskId)
    requires Safe(s) && t in s.tasks && s.tasks[t].AtHead?
    ensures Safe(WriteDepthStep(s, t))
  {
    var AtHead(id, row, head) := s.tasks[t];
    assert TaskOk(s, s.tasks[t]);
    var confirmations := Confirmations(head, row.block);
    var s' := SetDepth(s, id, confirmations);
    SetRowSafe(s, id, s.rows[id].(depth := confirmations));
    DropSafe(s', t);
    if confirmations >= DefaultDepth(row.chain) {
      PutSafe(s', t, Deepened(id, row, head));
    }
  }

  lemma WriteStatusSafe(s: State, t: TaskId)
    requires Safe(s) && t in s.tasks && s.tasks[t].Deepened?
    ensures Safe(WriteStatusStep(s, t))
  {
    var Deepened(id, row, head) := s.tasks[t];
    assert TaskOk(s, s.tasks[t]);
    var s' := SetStatus(s, id, NextStatus(row.status));
    StatusSafe(s, id, NextStatus(row.status));
    assert (row.chain, head) in s'.observed && head - row.block >= DefaultDepth(row.chain);
    PutSafe(s', t, PollerReady(row));
  }

  lemma QuietReady(s: State, t: TaskId, row: Row, eventType: EventType)
    requires Safe(s) && eventType in {PaymentReorged, PaymentFailed}
    ensures Safe(Put(s, t, Ready(Reconstruct(row), eventType, None, Background)))
  {
    PutSafe(s, t, Ready(Reconstruct(row), eventType, None, Background));
  }

  lemma EmitSafe(s: State, t: TaskId, ep: Endpoint, channel: Channel)
    requires Safe(s) && t in s.tasks && CanEmit(s.tasks[t], ep, channel)
    ensures Safe(EmitStep(s, t, ep, channel))
  {
    assert TaskOk(s, s.tasks[t]);
    EmissionJustified(s, s.tasks[t], ep, channel);
    var s' := EmitStep(s, t, ep, channel);
    forall u | u in s'.tasks ensures TaskOk(s', s'.tasks[u]) {
      assert TaskOk(s, s.tasks[u]);
    }
  }

  lemma StepSafe(s: State, e: Event)
    requires Safe(s) && Enabled(s, e)
    ensures Safe(Step(s, e))
  {
    match e
    case Post(t, transfer, id) =>
      var key := KeyOf(transfer);
      var s' := Generate(Claim(s, t, key, AfterClaim(s.nonces, key, Some(id), FacilitatorPath)), id, key);
      BookkeepingSafe(s, s');
      PutSafe(s', t, Posted(id, transfer));
    case Deliver(t, transfer) => DeliverSafe(s, t, transfer);
    case DeliverTrigger(t, transfer) =>
      var s' := Claim(s, t, KeyOf(transfer), AfterPlainClaim(s.nonces, KeyOf(transfer)));
      BookkeepingSafe(s, s');
      PutSafe(s', t, TriggerDelivered(transfer));
    case Observe(t, head) => ObserveSafe(s, t, head);
    case RecordPosted(t, stored) => RecordPostedSafe(s, t, stored);
    case Record(t, id, stored) =>
      if s.tasks[t].Checked? {
        var Checked(transfer, finality) := s.tasks[t];
        assert TaskOk(s, s.tasks[t]);
        var row := RowFor(transfer, IngestStatus(finality), StoredDepth(finality));
        var ready := Ready(transfer, Dispatch.IngestType(None, finality), finality, Ingest);
        PutSafe(s, t, ready);
        InsertSafe(s, t, id, row);
        PutSafe(InsertRow(s, t, id, row), t, ready);
      } else {
        RecordTriggerSafe(s, t, id, stored);
      }
    case Promote(t) => PromoteSafe(s, t);
    case MarkReorged(t, canonical) =>
      StatusSafe(s, s.tasks[t].id, Reorged);
      PutSafe(SetStatus(s, s.tasks[t].id, Reorged), t, ReorgMarked(s.tasks[t].id, s.tasks[t].row));
    case WriteDepth(t) => WriteDepthSafe(s, t);
    case WriteStatus(t) => WriteStatusSafe(s, t);
    case Expire(t) =>
      StatusSafe(s, s.tasks[t].id, Failed);
      QuietReady(SetStatus(s, s.tasks[t].id, Failed), t, s.tasks[t].row, PaymentFailed);
    case Poll(t, id) => PutSafe(s, t, Polled(id, s.rows[id]));
    case Sweep(t, id) => PutSafe(s, t, Swept(id, s.rows[id]));
    case Invalidate(t, ok) =>
      var before := if ok then InvalidateNonces(s, s.tasks[t].id) else s;
      BookkeepingSafe(s, before);
      QuietReady(before, t, s.tasks[t].row, PaymentReorged);
    case Emit(t, ep, channel) => EmitSafe(s, t, ep, channel);
    case Stop(t) => DropSafe(s, t);
  }

  lemma {:induction false} TraceSafe(states: seq<State>, es: seq<Event>, k: nat)
    requires Trace(states, es) && k <= |es|
    ensures Safe(states[k])
  {
    if k > 0 {
      TraceSafe(states, es, k - 1);
      assert Enabled(states[k - 1], es[k - 1]);
      StepSafe(states[k - 1], es[k - 1]);
    }
  }

  lemma ReachableSafe(s: State)
    requires Reachable(s)
    ensures Safe(s)
  {
    var states, es :| Trace(states, es) && states[|es|] == s;
    TraceSafe(states, es, |es|);
  }

  /**
   Over every run and every dispatch path, a payload is marked safe only if some observed head was
   deep enough past the payload's block: by the endpoint's own depth, except that a
   payment.finalized payload only has the chain default behind it.
   */
  lemma SafeToExecuteIsBuried(s: State, p: Payload)
    requires Reachable(s) && p in s.payloads && p.execution.safe
    ensures Buried(s.observed, p.transfer.chain, p.transfer.block,
                   if p.eventType == PaymentFinalized then DefaultDepth(p.transfer.chain)
                   else EffectiveDepth(p.endpoint, p.transfer.chain))
  {
    ReachableSafe(s);
    assert Justified(s.observed, p);
  }

  /** The bound that holds for every payload alike; it is never less than one confirmation. */
  lemma SafeToExecuteMinimum(s: State, p: Payload)
    requires Reachable(s) && p in s.payloads && p.execution.safe
    ensures Buried(s.observed, p.transfer.chain, p.transfer.block,
                   Min(DefaultDepth(p.transfer.chain), EffectiveDepth(p.endpoint, p.transfer.chain)))
    ensures Buried(s.observed, p.transfer.chain, p.transfer.block, 1)
  {
    SafeToExecuteIsBuried(s, p);
    Weaken(s.observed, p.transfer.chain, p.transfer.block, Required(p),
           Min(DefaultDepth(p.transfer.chain), EffectiveDepth(p.endpoint, p.transfer.chain)));
    Weaken(s.observed, p.transfer.chain, p.transfer.block, Required(p), 1);
  }

  /** The poller confirms a pending row only with a depth the row's own block really had. */
  lemma PendingDepthIsReal(s: State, id: string)
    requires Reachable(s) && id in s.rows && s.rows[id].status == Pending
    ensures s.rows[id].depth == 0 || (s.rows[id].chain, s.rows[id].block + s.rows[id].depth) in s.observed
  {
    ReachableSafe(s);
    assert RowOk(s.observed, s.rows[id]);
  }
}
