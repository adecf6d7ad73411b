/** When a payment can still be recorded, and the held nonces behind which none ever is. */
module LifecycleLost {
  import opened Wrappers
  import opened Finality
  import opened Tables
  import opened Lifecycle
  import opened LifecycleClaims

  /** A task that may still insert a row for this authorization. */
  predicate Inserting(task: Task, key: AuthKey) {
    (task.Posted? || task.Delivered? || task.Checked? || task.TriggerDelivered? || task.TriggerReady?)
    && KeyOf(task.transfer) == key
  }

  /** The nonce is held, and no task is left that may insert for it. */
  predicate Unattended(s: State, key: AuthKey) {
    Held(s.nonces, key) && forall t :: t in s.tasks ==> !Inserting(s.tasks[t], key)
  }

  predicate Abandoned(s: State, key: AuthKey) {
    Unattended(s, key) && s.nonces[key].eventId == None
  }

  predicate NoNewInserter(s: State, s': State, key: AuthKey) {
    forall t :: t in s'.tasks && Inserting(s'.tasks[t], key) ==> t in s.tasks && Inserting(s.tasks[t], key)
  }

  predicate Untouched(s: State, s': State, key: AuthKey) {
    NoNewInserter(s, s', key) && RowsOf(s', key) == RowsOf(s, key)
  }

  /** One row is written, and keeps its authorization or has another one. */
  lemma OtherRow(s: State, s': State, id: string, key: AuthKey)
    requires id in s'.rows && s'.rows == s.rows[id := s'.rows[id]]
    requires if id in s.rows then RowKey(s'.rows[id]) == RowKey(s.rows[id]) else RowKey(s'.rows[id]) != key
    ensures RowsOf(s', key) == RowsOf(s, key)
  {}

  lemma DeliverLost(s: State, t: TaskId, transfer: Transfer, key: AuthKey)
    requires Held(s.nonces, key)
    ensures Untouched(s, DeliverStep(s, t, transfer), key)
  {}

  lemma TriggerLost(s: State, t: TaskId, transfer: Transfer, key: AuthKey)
    requires Held(s.nonces, key)
    ensures Untouched(s, TriggerStep(s, t, transfer), key)
  {}

  lemma ObserveLost(s: State, t: TaskId, head: Option<int>, key: AuthKey)
    requires Enabled(s, Observe(t, head))
    ensures Untouched(s, ObserveStep(s, t, head), key)
  {}

  lemma RecordPostedLost(s: State, t: TaskId, stored: bool, key: AuthKey)
    requires t in s.tasks && s.tasks[t].Posted? && !Inserting(s.tasks[t], key)
    ensures Untouched(s, RecordPostedStep(s, t, stored), key)
  {
    if stored && s.tasks[t].id !in s.rows {
      OtherRow(s, RecordPostedStep(s, t, stored), s.tasks[t].id, key);
    }
  }

  lemma RecordIngestLost(s: State, t: TaskId, id: string, stored: bool, key: AuthKey)
    requires t in s.tasks && s.tasks[t].Checked? && !Inserting(s.tasks[t], key) && id !in s.rows
    ensures Untouched(s, RecordIngestStep(s, t, id, stored), key)
  {
    if stored {
      OtherRow(s, RecordIngestStep(s, t, id, stored), id, key);
    }
  }

  lemma RecordTriggerLost(s: State, t: TaskId, id: string, stored: bool, key: AuthKey)
    requires t in s.tasks && s.tasks[t].TriggerReady? && !Inserting(s.tasks[t], key) && id !in s.rows
    ensures Untouched(s, RecordTriggerStep(s, t, id, stored), key)
  {
    if stored {
      OtherRow(s, RecordTriggerStep(s, t, id, stored), id, key);
    }
  }

  lemma StatusLost(s: State, id: string, status: Status, key: AuthKey)
    ensures RowsOf(SetStatus(s, id, status), key) == RowsOf(s, key)
  {
    if id in s.rows {
      OtherRow(s, SetStatus(s, id, status), id, key);
    }
  }

  lemma DepthLost(s: State, id: string, depth: nat, key: AuthKey)
    ensures RowsOf(SetDepth(s, id, depth), key) == RowsOf(s, key)
  {
    if id in s.rows {
      OtherRow(s, SetDepth(s, id, depth), id, key);
    }
  }

  /** A task goes to a phase in which it inserts nothing. */
  lemma PutLost(s: State, s1: State, t: TaskId, task: Task, key: AuthKey)
    requires s1.tasks == s.tasks && RowsOf(s1, key) == RowsOf(s, key) && !Inserting(task, key)
    ensures Untouched(s, Put(s1, t, task), key)
  {}

  lemma PromoteLost(s: State, t: TaskId, key: AuthKey)
    requires t in s.tasks && s.tasks[t].Correlated?
    ensures Untouched(s, PromoteStep(s, t), key)
  {
    var Correlated(id, transfer) := s.tasks[t];
    if id in s.rows {
      var s1 := SetRow(s, id, PromotedRow(s.rows[id], transfer));
      OtherRow(s, s1, id, key);
      PutLost(s, s1, t, Promoted(id, transfer), key);
    }
  }

  lemma ExpireLost(s: State, t: TaskId, key: AuthKey)
    requires t in s.tasks && s.tasks[t].Swept?
    ensures Untouched(s, ExpireStep(s, t), key)
  {
    var Swept(id, row) := s.tasks[t];
    StatusLost(s, id, Failed, key);
    PutLost(s, SetStatus(s, id, Failed), t, Ready(Reconstruct(row), PaymentFailed, None, Background), key);
  }

  lemma InvalidateLost(s: State, t: TaskId, ok: bool, key: AuthKey)
    requires t in s.tasks && s.tasks[t].ReorgMarked?
    ensures Untouched(s, InvalidateStep(s, t, ok), key)
  {
    var ReorgMarked(id, row) := s.tasks[t];
    var s1 := if ok then InvalidateNonces(s, id) else s;
    assert RowsOf(s1, key) == RowsOf(s, key);
    PutLost(s, s1, t, Ready(Reconstruct(row), PaymentReorged, None, Background), key);
  }

  lemma RecordLost(s: State, t: TaskId, id: string, stored: bool, key: AuthKey)
    requires Unattended(s, key) && Enabled(s, Record(t, id, stored))
    ensures Untouched(s, Step(s, Record(t, id, stored)), key)
  {
    if s.tasks[t].Checked? {
      RecordIngestLost(s, t, id, stored, key);
    } else {
      RecordTriggerLost(s, t, id, stored, key);
    }
  }

  lemma ClaimLost(s: State, e: Event, key: AuthKey)
    requires Held(s.nonces, key) && Enabled(s, e) && ClaimEvent(e)
    ensures Untouched(s, Step(s, e), key)
  {
    match e
    case Post(_, _, _) =>
    case Deliver(t, transfer) => DeliverLost(s, t, transfer, key);
    case DeliverTrigger(t, transfer) => TriggerLost(s, t, transfer, key);
  }

  lemma StepLost(s: State, e: Event, key: AuthKey)
    requires Unattended(s, key) && Enabled(s, e)
    ensures Untouched(s, Step(s, e), key)
  {
    match e
    case Post(_, _, _) => ClaimLost(s, e, key);
    case Deliver(_, _) => ClaimLost(s, e, key);
    case DeliverTrigger(_, _) => ClaimLost(s, e, key);
    case Observe(t, head) => ObserveLost(s, t, head, key);
    case RecordPosted(t, stored) => RecordPostedLost(s, t, stored, key);
    case Record(t, id, stored) => RecordLost(s, t, id, stored, key);
    case Promote(t) => PromoteLost(s, t, key);
    case MarkReorged(t, _) =>
      var AtHead(id, row, _) := s.tasks[t];
      StatusLost(s, id, Reorged, key);
      PutLost(s, SetStatus(s, id, Reorged), t, ReorgMarked(id, row), key);
    case WriteDepth(t) =>
      var AtHead(id, row, head) := s.tasks[t];
      var s1 := SetDepth(s, id, Confirmations(head, row.block));
      DepthLost(s, id, Confirmations(head, row.block), key);
      PutLost(s, s1, t, Deepened(id, row, head), key);
    case WriteStatus(t) =>
      var Deepened(id, row, _) := s.tasks[t];
      StatusLost(s, id, NextStatus(row.status), key);
      PutLost(s, SetStatus(s, id, NextStatus(row.status)), t, PollerReady(row), key);
    case Expire(t) => ExpireLost(s, t, key);
    case Invalidate(t, ok) => InvalidateLost(s, t, ok, key);
    case Poll(t, id) => PutLost(s, s, t, Polled(id, s.rows[id]), key);
    case Sweep(t, id) => PutLost(s, s, t, Swept(id, s.rows[id]), key);
    case Emit(_, _, _) =>
    case Stop(t) =>
  }

  /**
   A nonce held without an event id, with no task left that may insert: in no continuation does its
   authorization get another row, and it stays abandoned for ever.
   */
  lemma {:induction false} AbandonedForever(s: State, es: seq<Event>, key: AuthKey)
    requires Abandoned(s, key) && ValidRun(s, es)
    ensures Abandoned(Run(s, es), key) && RowsOf(Run(s, es), key) == RowsOf(s, key)
    decreases |es|
  {
    if es != [] {
      AnonymousStep(s, es[0], key);
      StepLost(s, es[0], key);
      AbandonedForever(Step(s, es[0]), es[1..], key);
    }
  }

  // ----- payments without a row -----

  /** A held nonce of either kind, without a row and without a task that may insert one. */
  predicate Dead(s: State, key: AuthKey) {
    Structure(s) && Unattended(s, key) && RowsOf(s, key) == {}
  }

  /** A reorg frees an authorization only through a stored row of it. */
  lemma DeadStaysHeld(s: State, e: Event, key: AuthKey)
    requires Dead(s, key) && Enabled(s, e)
    ensures key in Step(s, e).nonces && Step(s, e).nonces[key] == s.nonces[key]
  {
    if ClaimEvent(e) {
      ClaimEffect(s, e);
      ClaimStepEffect(s, e);
    } else if e.Invalidate? && e.ok {
      InvalidateEffect(s, e.t);
      assert LifecycleClaims.TaskOk(s, e.t, s.tasks[e.t]);
      var id := s.tasks[e.t].id;
      assert id in s.rows && id !in RowsOf(s, key);
    }
  }

  lemma {:induction false} DeadForever(s: State, es: seq<Event>, key: AuthKey)
    requires Dead(s, key) && ValidRun(s, es)
    ensures Dead(Run(s, es), key) && Run(s, es).nonces[key] == s.nonces[key]
    decreases |es|
  {
    if es != [] {
      DeadStaysHeld(s, es[0], key);
      StepLost(s, es[0], key);
      StepStructure(s, es[0]);
      DeadForever(Step(s, es[0]), es[1..], key);
    }
  }

  // ----- a row can still be stored -----

  lemma {:induction false} NewText(used: set<string>) returns (n: nat)
    ensures forall x :: x in used ==> |x| < n
  {
    if used == {} {
      n := 0;
    } else {
      var x :| x in used;
      var rest := NewText(used - {x});
      n := if rest <= |x| then |x| + 1 else rest;
      assert forall y :: y in used ==> y == x || y in used - {x};
    }
  }

  lemma FreshId(s: State) returns (id: string)
    ensures NewId(s, id)
  {
    var n := NewText(s.owner.Keys + s.rows.Keys);
    id := seq(n, _ => '-');
  }

  lemma {:induction false} NewNumber(used: set<nat>) returns (n: nat)
    ensures forall x :: x in used ==> x < n
  {
    if used == {} {
      n := 0;
    } else {
      var x :| x in used;
      var rest := NewNumber(used - {x});
      n := if rest <= x then x + 1 else rest;
      assert forall y :: y in used ==> y == x || y in used - {x};
    }
  }

  ghost predicate Recordable(s: State, key: AuthKey) {
    exists es :: ValidRun(s, es) && RowsOf(Run(s, es), key) != {}
  }

  lemma RecordableAt(s: State, es: seq<Event>, key: AuthKey)
    requires ValidRun(s, es) && RowsOf(Run(s, es), key) != {}
    ensures Recordable(s, key)
  {}

  /** One step before a state from which the payment can be recorded. */
  lemma RecordableBefore(s: State, e: Event, key: AuthKey)
    requires Enabled(s, e) && Recordable(Step(s, e), key)
    ensures Recordable(s, key)
  {
    var es :| ValidRun(Step(s, e), es) && RowsOf(Run(Step(s, e), es), key) != {};
    var all := [e] + es;
    assert all[0] == e && all[1..] == es;
    RecordableAt(s, all, key);
  }

  lemma RecordableNow(s: State, key: AuthKey)
    requires RowsOf(s, key) != {}
    ensures Recordable(s, key)
  {
    RecordableAt(s, [], key);
  }

  lemma CheckedRecords(s: State, t: TaskId)
    requires t in s.tasks && s.tasks[t].Checked?
    ensures Recordable(s, KeyOf(s.tasks[t].transfer))
  {
    var id := FreshId(s);
    var s', key := RecordIngestStep(s, t, id, true), KeyOf(s.tasks[t].transfer);
    assert id in RowsOf(s', key);
    RecordableNow(s', key);
    RecordableBefore(s, Record(t, id, true), key);
  }

  lemma TriggerReadyRecords(s: State, t: TaskId)
    requires t in s.tasks && s.tasks[t].TriggerReady?
    ensures Recordable(s, KeyOf(s.tasks[t].transfer))
  {
    var id := FreshId(s);
    var s', key := RecordTriggerStep(s, t, id, true), KeyOf(s.tasks[t].transfer);
    assert id in RowsOf(s', key);
    RecordableNow(s', key);
    RecordableBefore(s, Record(t, id, true), key);
  }

  lemma DeliveredRecords(s: State, t: TaskId)
    requires t in s.tasks && (s.tasks[t].Delivered? || s.tasks[t].TriggerDelivered?)
    ensures Recordable(s, KeyOf(s.tasks[t].transfer))
  {
    var s' := ObserveStep(s, t, None);
    if s.tasks[t].Delivered? {
      CheckedRecords(s', t);
    } else {
      TriggerReadyRecords(s', t);
    }
    RecordableBefore(s, Observe(t, None), KeyOf(s.tasks[t].transfer));
  }

  lemma InserterRecords(s: State, t: TaskId, key: AuthKey)
    requires Structure(s) && t in s.tasks && Inserting(s.tasks[t], key)
    ensures Recordable(s, key)
  {
    match s.tasks[t]
    case Posted(id, transfer) =>
      assert LifecycleClaims.TaskOk(s, t, s.tasks[t]);
      var s' := RecordPostedStep(s, t, true);
      assert id in RowsOf(s', KeyOf(transfer));
      RecordableNow(s', KeyOf(transfer));
      RecordableBefore(s, RecordPosted(t, true), KeyOf(transfer));
    case Checked(_, _) => CheckedRecords(s, t);
    case TriggerReady(_, _) => TriggerReadyRecords(s, t);
    case Delivered(_) => DeliveredRecords(s, t);
    case TriggerDelivered(_) => DeliveredRecords(s, t);
    case _ =>
  }

  /**
   In every reachable state a payment without a row can still be recorded by some continuation if and
   only if its nonce is free, or some task that has claimed it has yet to insert. Otherwise it is lost for
   good, whoever claimed it.
   */
  lemma RecordableIff(s: State, mined: Transfer)
    requires Reachable(s) && RowsOf(s, KeyOf(mined)) == {}
    ensures Recordable(s, KeyOf(mined))
      <==> !Held(s.nonces, KeyOf(mined)) || exists t :: t in s.tasks && Inserting(s.tasks[t], KeyOf(mined))
  {
    var key := KeyOf(mined);
    ReachableStructure(s);
    if !Held(s.nonces, key) {
      var t := NewNumber(s.tasks.Keys + s.wins.Keys);
      DeliveredRecords(DeliverStep(s, t, mined), t);
      RecordableBefore(s, Deliver(t, mined), KeyOf(mined));
    } else if t :| t in s.tasks && Inserting(s.tasks[t], key) {
      InserterRecords(s, t, key);
    } else {
      if Recordable(s, key) {
        var es :| ValidRun(s, es) && RowsOf(Run(s, es), key) != {};
        DeadForever(s, es, key);
      }
    }
  }

  // ----- how it comes to that -----

  /** A Goldsky delivery has claimed its nonce and stopped, as a worker's timeout makes it. */
  function StoppedAfterClaim(mined: Transfer): State {
    Init().(nonces := map[KeyOf(mined) := Nonce(None, GoldskyPath, false)], wins := map[0 := KeyOf(mined)])
  }

  /**
   A payment is lost by one timeout: the state is reachable, nothing in it knows of the payment but the
   held nonce, every redelivery is answered duplicate and leaves no task, and no run ever records it.
   */
  lemma StoppedClaimIsLost(mined: Transfer, es: seq<Event>)
    requires ValidRun(StoppedAfterClaim(mined), es)
    ensures Reachable(StoppedAfterClaim(mined))
    ensures var s := Run(StoppedAfterClaim(mined), es);
      RowsOf(s, KeyOf(mined)) == {} && AnswerFor(s.nonces, KeyOf(mined)) == Duplicate(None, GoldskyPath)
  {
    var s0 := DeliverStep(Init(), 0, mined);
    InitReachable();
    StepReachable(Init(), Deliver(0, mined));
    StepReachable(s0, Stop(0));
    assert Drop(s0, 0) == StoppedAfterClaim(mined);
    AbandonedForever(StoppedAfterClaim(mined), es, KeyOf(mined));
    AnonymousClaimIsForever(StoppedAfterClaim(mined), es, KeyOf(mined));
  }

  /** A facilitator's post has claimed its nonce; its task is gone, or has gone on without its row. */
  function PostedWithoutRow(announced: Transfer, id: string, tasks: map<TaskId, Task>): State {
    Init().(nonces := map[KeyOf(announced) := Nonce(Some(id), FacilitatorPath, false)],
            wins := map[0 := KeyOf(announced)], owner := map[id := KeyOf(announced)], tasks := tasks)
  }

  lemma PostedWithoutRowReachable(announced: Transfer, id: string)
    ensures Reachable(PostedWithoutRow(announced, id, map[]))
    ensures var ready := Ready(announced, PaymentPreConfirmed, None, Ingest);
      Reachable(PostedWithoutRow(announced, id, map[0 := ready]))
  {
    var s0 := PostStep(Init(), 0, announced, id);
    InitReachable();
    StepReachable(Init(), Post(0, announced, id));
    StepReachable(s0, Stop(0));
    StepReachable(s0, RecordPosted(0, false));
    assert Drop(s0, 0) == PostedWithoutRow(announced, id, map[]);
    assert RecordPostedStep(s0, 0, false)
      == PostedWithoutRow(announced, id, map[0 := Ready(announced, PaymentPreConfirmed, None, Ingest)]);
  }

  /**
   The fast path loses a payment too, and needs no crash for it: its post stops after the claim, or its
   insert raises and is only logged. Both states are reachable. Each later delivery of the payment, being
   a duplicate, is to promote a row that no run ever stores.
   */
  lemma PostedClaimIsLost(announced: Transfer, id: string, stopped: bool, es: seq<Event>)
    requires ValidRun(LostPost(announced, id, stopped), es)
    ensures Reachable(LostPost(announced, id, stopped))
    ensures !Abandoned(LostPost(announced, id, stopped), KeyOf(announced))
    ensures var s := Run(LostPost(announced, id, stopped), es);
      RowsOf(s, KeyOf(announced)) == {} && AnswerFor(s.nonces, KeyOf(announced)) == Duplicate(Some(id), FacilitatorPath)
  {
    var s := LostPost(announced, id, stopped);
    PostedWithoutRowReachable(announced, id);
    ReachableStructure(s);
    assert RowsOf(s, KeyOf(announced)) == {};
    DeadForever(s, es, KeyOf(announced));
  }

  function LostPost(announced: Transfer, id: string, stopped: bool): State {
    PostedWithoutRow(announced, id,
      if stopped then map[] else map[0 := Ready(announced, PaymentPreConfirmed, None, Ingest)])
  }
}
