/** One claim, and one row, per authorization and reorg epoch. */
module LifecycleClaims {
  import opened Wrappers
  import opened Finality
  import opened Tables
  import opened Lifecycle
  import Dispatch

  /** The tasks whose claim on this authorization was answered new. */
  function WinsOf(s: State, key: AuthKey): set<TaskId> {
    set t | t in s.wins && s.wins[t] == key
  }

  function RowsOf(s: State, key: AuthKey): set<string> {
    set id | id in s.rows && RowKey(s.rows[id]) == key
  }

  predicate Held(nonces: Nonces, key: AuthKey) {
    key in nonces && !nonces[key].reorged
  }

  /** Claims answered new are the invalidations, plus one while the nonce is held. */
  predicate Ledger(s: State, key: AuthKey) {
    |WinsOf(s, key)| == Count(s.invalidations, key) + (if Held(s.nonces, key) then 1 else 0)
  }

  /** An event id belongs to one authorization, in the nonce table, in the event table and in every task. */
  predicate IdsOk(s: State) {
    (forall key :: key in s.nonces && s.nonces[key].eventId.Some? ==>
       s.nonces[key].eventId.value in s.owner && s.owner[s.nonces[key].eventId.value] == key)
    && (forall id :: id in s.rows ==> id in s.owner && s.owner[id] == RowKey(s.rows[id]))
  }

  /** Every row was inserted by a task that had won its authorization, and no task inserted two. */
  predicate InsertersOk(s: State) {
    s.inserter.Keys == s.rows.Keys
    && (forall id :: id in s.rows ==>
          s.inserter[id] in s.wins && s.wins[s.inserter[id]] == RowKey(s.rows[id]))
    && (forall id, id' :: id in s.rows && id' in s.rows && s.inserter[id] == s.inserter[id'] ==> id == id')
  }

  /** A task that still may insert: it has won the authorization and has inserted nothing. */
  predicate MayInsert(s: State, t: TaskId, transfer: Transfer) {
    t in s.wins && s.wins[t] == KeyOf(transfer) && (forall id :: id in s.inserter ==> s.inserter[id] != t)
  }

  /** A snapshot is of a stored row, and its event id belongs to the snapshot's authorization. */
  predicate Owns(s: State, id: string, row: Row) {
    id in s.inserter && id in s.owner && s.owner[id] == RowKey(row)
  }

  predicate TaskOk(s: State, t: TaskId, task: Task) {
    match task
    case Posted(id, transfer) => MayInsert(s, t, transfer) && id in s.owner && s.owner[id] == KeyOf(transfer)
    case Delivered(transfer) => MayInsert(s, t, transfer)
    case Checked(transfer, _) => MayInsert(s, t, transfer)
    case TriggerDelivered(transfer) => MayInsert(s, t, transfer)
    case TriggerReady(transfer, _) => MayInsert(s, t, transfer)
    case Correlated(id, transfer) => t !in s.wins && id in s.owner && s.owner[id] == KeyOf(transfer)
    case Promoted(id, transfer) => t !in s.wins && id in s.owner && s.owner[id] == KeyOf(transfer)
    case Polled(id, row) => Owns(s, id, row)
    case AtHead(id, row, _) => Owns(s, id, row)
    case Deepened(id, row, _) => Owns(s, id, row)
    case ReorgMarked(id, row) => Owns(s, id, row)
    case _ => true
  }

  predicate TasksOk(s: State) {
    forall t :: t in s.tasks ==> TaskOk(s, t, s.tasks[t])
  }

  predicate Structure(s: State) {
    IdsOk(s) && InsertersOk(s) && TasksOk(s)
  }

  // ----- the books: claims and invalidations -----

  /** The nonce table after the claim of a claim event. */
  function NoncesAfter(s: State, e: Event): Nonces
    requires ClaimEvent(e)
  {
    match e
    case Post(_, transfer, id) => AfterClaim(s.nonces, KeyOf(transfer), Some(id), FacilitatorPath)
    case Deliver(_, transfer) => AfterClaim(s.nonces, KeyOf(transfer), None, GoldskyPath)
    case DeliverTrigger(_, transfer) => AfterPlainClaim(s.nonces, KeyOf(transfer))
  }

  function ClaimedId(e: Event): Option<string>
    requires ClaimEvent(e)
  {
    if e.Post? then Some(e.id) else None
  }

  /** Only the claimed entry may change; it is held afterwards, and an entry already held stays as it is. */
  lemma ClaimEffect(s: State, e: Event)
    requires ClaimEvent(e)
    ensures var key, nonces' := KeyOf(e.transfer), NoncesAfter(s, e);
      Held(nonces', key) && nonces'.Keys == s.nonces.Keys + {key}
      && (forall k :: k in s.nonces && k != key ==> nonces'[k] == s.nonces[k])
      && (if Held(s.nonces, key) then nonces' == s.nonces else nonces'[key].eventId == ClaimedId(e))
  {}

  /** The columns the books speak of, after a claim event. */
  predicate ClaimBooks(s: State, e: Event, s': State)
    requires ClaimEvent(e)
  {
    s'.nonces == NoncesAfter(s, e) && s'.invalidations == s.invalidations
    && s'.wins == if AnswerFor(s.nonces, KeyOf(e.transfer)).Fresh? then s.wins[e.t := KeyOf(e.transfer)] else s.wins
  }

  lemma PostBooks(s: State, t: TaskId, transfer: Transfer, id: string)
    ensures ClaimBooks(s, Post(t, transfer, id), PostStep(s, t, transfer, id))
  {}

  lemma DeliverBooks(s: State, t: TaskId, transfer: Transfer)
    ensures ClaimBooks(s, Deliver(t, transfer), DeliverStep(s, t, transfer))
  {}

  lemma TriggerBooks(s: State, t: TaskId, transfer: Transfer)
    ensures ClaimBooks(s, DeliverTrigger(t, transfer), TriggerStep(s, t, transfer))
  {}

  lemma ClaimStepEffect(s: State, e: Event)
    requires Enabled(s, e) && ClaimEvent(e)
    ensures ClaimBooks(s, e, Step(s, e))
  {
    match e
    case Post(t, transfer, id) => PostBooks(s, t, transfer, id);
    case Deliver(t, transfer) => DeliverBooks(s, t, transfer);
    case DeliverTrigger(t, transfer) => TriggerBooks(s, t, transfer);
  }

  lemma InvalidateEffect(s: State, t: TaskId)
    requires t in s.tasks && s.tasks[t].ReorgMarked?
    ensures SameBooks(InvalidateNonces(s, s.tasks[t].id), InvalidateStep(s, t, true))
  {}

  lemma WinsGrow(s: State, t: TaskId, key: AuthKey, s': State, k: AuthKey)
    requires t !in s.wins && s'.wins == s.wins[t := key]
    ensures |WinsOf(s', k)| == |WinsOf(s, k)| + if k == key then 1 else 0
  {
    if k == key {
      assert WinsOf(s', k) == WinsOf(s, k) + {t};
    } else {
      assert WinsOf(s', k) == WinsOf(s, k);
    }
  }

  lemma ClaimLedger(s: State, e: Event, key: AuthKey)
    requires Enabled(s, e) && ClaimEvent(e) && Ledger(s, key)
    ensures Ledger(Step(s, e), key)
  {
    ClaimEffect(s, e);
    ClaimStepEffect(s, e);
    if AnswerFor(s.nonces, KeyOf(e.transfer)).Fresh? {
      WinsGrow(s, e.t, KeyOf(e.transfer), Step(s, e), key);
    } else {
      assert WinsOf(Step(s, e), key) == WinsOf(s, key);
    }
  }

  lemma InvalidateLedger(s: State, id: string, s': State, key: AuthKey)
    requires SameBooks(InvalidateNonces(s, id), s') && Ledger(s, key)
    ensures Ledger(s', key)
  {
    assert WinsOf(s', key) == WinsOf(s, key);
  }

  lemma StepLedger(s: State, e: Event, key: AuthKey)
    requires Enabled(s, e) && Ledger(s, key)
    ensures Ledger(Step(s, e), key)
  {
    if ClaimEvent(e) {
      ClaimLedger(s, e, key);
    } else if e.Invalidate? && e.ok {
      InvalidateEffect(s, e.t);
      InvalidateLedger(s, s.tasks[e.t].id, Step(s, e), key);
    } else {
      assert WinsOf(Step(s, e), key) == WinsOf(s, key);
    }
  }

  lemma {:induction false} TraceLedger(states: seq<State>, es: seq<Event>, k: nat, key: AuthKey)
    requires Trace(states, es) && k <= |es|
    ensures Ledger(states[k], key)
  {
    if k == 0 {
      assert WinsOf(Init(), key) == {};
    } else {
      TraceLedger(states, es, k - 1, key);
      assert Enabled(states[k - 1], es[k - 1]);
      StepLedger(states[k - 1], es[k - 1], key);
    }
  }

  // ----- the structure: tasks, ids and rows -----

  /** Another task's claim, or a fresh event id, does not disturb a task. */
  lemma TaskKept(s: State, s': State, u: TaskId, task: Task)
    requires TaskOk(s, u, task) && s'.inserter == s.inserter
    requires (u in s'.wins <==> u in s.wins) && (u in s.wins ==> s'.wins[u] == s.wins[u])
    requires forall id :: id in s.owner ==> id in s'.owner && s'.owner[id] == s.owner[id]
    ensures TaskOk(s', u, task)
  {}

  predicate ClaimedState(s: State, e: Event, s': State)
    requires ClaimEvent(e)
  {
    var s1 := Claim(s, e.t, KeyOf(e.transfer), NoncesAfter(s, e));
    s' == if e.Post? then Generate(s1, e.id, KeyOf(e.transfer)) else s1
  }

  lemma ClaimIds(s: State, e: Event, s': State)
    requires IdsOk(s) && Enabled(s, e) && ClaimEvent(e) && ClaimedState(s, e, s')
    ensures IdsOk(s')
  {
    ClaimEffect(s, e);
  }

  lemma ClaimStructure(s: State, e: Event, s': State)
    requires Structure(s) && Enabled(s, e) && ClaimEvent(e) && ClaimedState(s, e, s')
    ensures Structure(s')
  {
    forall u | u in s'.tasks ensures TaskOk(s', u, s'.tasks[u]) {
      TaskKept(s, s', u, s.tasks[u]);
    }
    ClaimIds(s, e, s');
  }

  lemma PutStructure(s: State, t: TaskId, task: Task)
    requires Structure(s) && TaskOk(s, t, task)
    ensures Structure(Put(s, t, task))
  {
    var s' := Put(s, t, task);
    forall u | u in s'.tasks ensures TaskOk(s', u, s'.tasks[u]) {
      assert TaskOk(s, u, s'.tasks[u]);
    }
  }

  lemma DropStructure(s: State, t: TaskId)
    requires Structure(s)
    ensures Structure(Drop(s, t))
  {
    var s' := Drop(s, t);
    forall u | u in s'.tasks ensures TaskOk(s', u, s'.tasks[u]) {
      assert TaskOk(s, u, s.tasks[u]);
    }
  }

  /** Heads and payloads are not part of the structure. */
  lemma OutputStructure(s: State, s': State)
    requires Structure(s)
    requires s' == s.(observed := s'.observed, payloads := s'.payloads)
    ensures Structure(s')
  {
    forall u | u in s'.tasks ensures TaskOk(s', u, s'.tasks[u]) {
      assert TaskOk(s, u, s.tasks[u]);
    }
  }

  lemma SetRowStructure(s: State, id: string, row: Row)
    requires Structure(s) && id in s.rows && RowKey(row) == RowKey(s.rows[id])
    ensures Structure(SetRow(s, id, row))
  {
    var s' := SetRow(s, id, row);
    forall u | u in s'.tasks ensures TaskOk(s', u, s'.tasks[u]) {
      assert TaskOk(s, u, s.tasks[u]);
    }
  }

  lemma InvalidateStructure(s: State, id: string)
    requires Structure(s)
    ensures Structure(InvalidateNonces(s, id))
  {
    var s' := InvalidateNonces(s, id);
    forall u | u in s'.tasks ensures TaskOk(s', u, s'.tasks[u]) {
      assert TaskOk(s, u, s.tasks[u]);
    }
  }

  lemma InsertRows(s: State, t: TaskId, transfer: Transfer, id: string, row: Row)
    requires IdsOk(s) && InsertersOk(s) && MayInsert(s, t, transfer) && RowKey(row) == KeyOf(transfer)
    requires id !in s.rows && (id in s.owner ==> s.owner[id] == RowKey(row))
    ensures IdsOk(InsertRow(s, t, id, row)) && InsertersOk(InsertRow(s, t, id, row))
  {}

  lemma OtherTaskKept(s: State, t: TaskId, id: string, row: Row, u: TaskId, task: Task)
    requires TaskOk(s, u, task) && u != t && (id in s.owner ==> s.owner[id] == RowKey(row)) && id !in s.inserter
    ensures TaskOk(InsertRow(s, t, id, row), u, task)
  {}

  /** Inserting uses up a task's claim, so it leaves its inserting phase in the same step. */
  lemma InsertStructure(s: State, t: TaskId, transfer: Transfer, id: string, row: Row)
    requires Structure(s) && MayInsert(s, t, transfer) && RowKey(row) == KeyOf(transfer)
    requires id !in s.rows && (id in s.owner ==> s.owner[id] == RowKey(row))
    ensures Structure(Drop(InsertRow(s, t, id, row), t))
  {
    InsertRows(s, t, transfer, id, row);
    var s' := Drop(InsertRow(s, t, id, row), t);
    forall u | u in s'.tasks ensures TaskOk(s', u, s'.tasks[u]) {
      OtherTaskKept(s, t, id, row, u, s.tasks[u]);
      TaskKept(InsertRow(s, t, id, row), s', u, s.tasks[u]);
    }
  }

  lemma InsertReadyStructure(s: State, t: TaskId, transfer: Transfer, id: string, row: Row, ready: Task)
    requires Structure(s) && MayInsert(s, t, transfer) && RowKey(row) == KeyOf(transfer) && ready.Ready?
    requires id !in s.rows && (id in s.owner ==> s.owner[id] == RowKey(row))
    ensures Structure(Put(InsertRow(s, t, id, row), t, ready))
  {
    InsertRows(s, t, transfer, id, row);
    var s' := Put(InsertRow(s, t, id, row), t, ready);
    forall u | u in s'.tasks && u != t ensures TaskOk(s', u, s'.tasks[u]) {
      OtherTaskKept(s, t, id, row, u, s.tasks[u]);
      TaskKept(InsertRow(s, t, id, row), s', u, s.tasks[u]);
    }
  }

  lemma ClaimStepStructure(s: State, e: Event)
    requires Structure(s) && Enabled(s, e) && ClaimEvent(e)
    ensures Structure(Step(s, e))
  {
    var key := KeyOf(e.transfer);
    var s1 := Claim(s, e.t, key, NoncesAfter(s, e));
    ClaimStructure(s, e, if e.Post? then Generate(s1, e.id, key) else s1);
    match e
    case Post(t, transfer, id) =>
      if AnswerFor(s.nonces, key).Fresh? {
        PutStructure(Generate(s1, id, key), t, Posted(id, transfer));
      }
    case Deliver(t, transfer) =>
      match AnswerFor(s.nonces, key) {
        case Fresh => PutStructure(s1, t, Delivered(transfer));
        case Duplicate(Some(id), FacilitatorPath) => PutStructure(s1, t, Correlated(id, transfer));
        case Duplicate(_, _) =>
      }
    case DeliverTrigger(t, transfer) =>
      if AnswerFor(s.nonces, key).Fresh? {
        PutStructure(s1, t, TriggerDelivered(transfer));
      }
  }

  lemma ObserveStepStructure(s: State, t: TaskId, head: Option<int>)
    requires Structure(s) && Enabled(s, Observe(t, head))
    ensures Structure(ObserveStep(s, t, head))
  {
    assert TaskOk(s, t, s.tasks[t]);
    var seen, task := Seen(s, ChainOf(s.tasks[t]), Asked(s.tasks[t], head)), AfterObserve(s.tasks[t], head);
    OutputStructure(s, seen);
    TaskKept(s, seen, t, task);
    PutStructure(seen, t, task);
  }

  lemma RecordPostedStructure(s: State, t: TaskId, stored: bool)
    requires Structure(s) && t in s.tasks && s.tasks[t].Posted?
    ensures Structure(RecordPostedStep(s, t, stored))
  {
    var Posted(id, transfer) := s.tasks[t];
    assert TaskOk(s, t, s.tasks[t]);
    var ready := Ready(transfer, PaymentPreConfirmed, None, Ingest);
    PutStructure(s, t, ready);
    if stored && id !in s.rows {
      var row := RowFor(transfer, PreConfirmed, 0);
      InsertReadyStructure(s, t, transfer, id, row, ready);
    }
  }

  lemma RecordIngestStructure(s: State, t: TaskId, id: string, stored: bool)
    requires Structure(s) && t in s.tasks && s.tasks[t].Checked? && NewId(s, id)
    ensures Structure(RecordIngestStep(s, t, id, stored))
  {
    var Checked(transfer, finality) := s.tasks[t];
    assert TaskOk(s, t, s.tasks[t]);
    var row := RowFor(transfer, IngestStatus(finality), StoredDepth(finality));
    var ready := Ready(transfer, Dispatch.IngestType(None, finality), finality, Ingest);
    PutStructure(s, t, ready);
    InsertReadyStructure(s, t, transfer, id, row, ready);
  }

  lemma RecordTriggerStructure(s: State, t: TaskId, id: string, stored: bool)
    requires Structure(s) && t in s.tasks && s.tasks[t].TriggerReady? && NewId(s, id)
    ensures Structure(RecordTriggerStep(s, t, id, stored))
  {
    var TriggerReady(transfer, finality) := s.tasks[t];
    assert TaskOk(s, t, s.tasks[t]);
    var row := RowFor(transfer, TriggerStatus(finality), StoredDepth(finality));
    DropStructure(s, t);
    InsertStructure(s, t, transfer, id, row);
  }

  lemma StatusStructure(s: State, id: string, status: Status)
    requires Structure(s)
    ensures Structure(SetStatus(s, id, status))
  {
    if id in s.rows {
      SetRowStructure(s, id, s.rows[id].(status := status));
    }
  }

  lemma PromoteStructure(s: State, t: TaskId)
    requires Structure(s) && t in s.tasks && s.tasks[t].Correlated?
    ensures Structure(PromoteStep(s, t))
  {
    var Correlated(id, transfer) := s.tasks[t];
    assert TaskOk(s, t, s.tasks[t]);
    DropStructure(s, t);
    if id in s.rows {
      var row := PromotedRow(s.rows[id], transfer);
      SetRowStructure(s, id, row);
      PutStructure(SetRow(s, id, row), t, Promoted(id, transfer));
    }
  }

  /** Phases in which a task neither inserts nor promotes. */
  predicate Passive(task: Task) {
    task.Polled? || task.AtHead? || task.Deepened? || task.ReorgMarked? || task.Swept? || task.Ready?
  }

  lemma PassiveStructure(s: State, t: TaskId, task: Task)
    requires Structure(s) && Passive(task) && TaskOk(s, t, task)
    ensures Structure(Put(s, t, task))
  {
    PutStructure(s, t, task);
  }

  lemma MarkReorgedStructure(s: State, t: TaskId)
    requires Structure(s) && t in s.tasks && s.tasks[t].AtHead?
    ensures Structure(MarkReorgedStep(s, t))
  {
    var AtHead(id, row, _) := s.tasks[t];
    assert TaskOk(s, t, s.tasks[t]);
    StatusStructure(s, id, Reorged);
    PassiveStructure(SetStatus(s, id, Reorged), t, ReorgMarked(id, row));
  }

  lemma WriteDepthStructure(s: State, t: TaskId)
    requires Structure(s) && t in s.tasks && s.tasks[t].AtHead?
    ensures Structure(WriteDepthStep(s, t))
  {
    var AtHead(id, row, head) := s.tasks[t];
    var depth := Confirmations(head, row.block);
    assert TaskOk(s, t, s.tasks[t]);
    if id in s.rows {
      SetRowStructure(s, id, s.rows[id].(depth := depth));
    }
    PassiveStructure(SetDepth(s, id, depth), t, Deepened(id, row, head));
    DropStructure(SetDepth(s, id, depth), t);
  }

  lemma ExpireStructure(s: State, t: TaskId)
    requires Structure(s) && t in s.tasks && s.tasks[t].Swept?
    ensures Structure(ExpireStep(s, t))
  {
    var Swept(id, row) := s.tasks[t];
    StatusStructure(s, id, Failed);
    PassiveStructure(SetStatus(s, id, Failed), t, Ready(Reconstruct(row), PaymentFailed, None, Background));
  }

  lemma InvalidateStepStructure(s: State, t: TaskId, ok: bool)
    requires Structure(s) && t in s.tasks && s.tasks[t].ReorgMarked?
    ensures Structure(InvalidateStep(s, t, ok))
  {
    var ReorgMarked(id, row) := s.tasks[t];
    InvalidateStructure(s, id);
    PassiveStructure(if ok then InvalidateNonces(s, id) else s, t,
                     Ready(Reconstruct(row), PaymentReorged, None, Background));
  }

  lemma StepStructure(s: State, e: Event)
    requires Structure(s) && Enabled(s, e)
    ensures Structure(Step(s, e))
  {
    match e
    case Post(_, _, _) => ClaimStepStructure(s, e);
    case Deliver(_, _) => ClaimStepStructure(s, e);
    case DeliverTrigger(_, _) => ClaimStepStructure(s, e);
    case Observe(t, head) => ObserveStepStructure(s, t, head);
    case RecordPosted(t, stored) => RecordPostedStructure(s, t, stored);
    case Record(t, id, stored) =>
      if s.tasks[t].Checked? {
        RecordIngestStructure(s, t, id, stored);
      } else {
        RecordTriggerStructure(s, t, id, stored);
      }
    case Promote(t) => PromoteStructure(s, t);
    case MarkReorged(t, _) => MarkReorgedStructure(s, t);
    case WriteDepth(t) => WriteDepthStructure(s, t);
    case WriteStatus(t) =>
      var Deepened(id, row, _) := s.tasks[t];
      StatusStructure(s, id, NextStatus(row.status));
      PassiveStructure(SetStatus(s, id, NextStatus(row.status)), t, PollerReady(row));
    case Expire(t) => ExpireStructure(s, t);
    case Poll(t, id) => PassiveStructure(s, t, Polled(id, s.rows[id]));
    case Sweep(t, id) => PassiveStructure(s, t, Swept(id, s.rows[id]));
    case Invalidate(t, ok) => InvalidateStepStructure(s, t, ok);
    case Emit(_, _, _) => OutputStructure(s, Step(s, e));
    case Stop(t) => DropStructure(s, t);
  }

  lemma {:induction false} TraceStructure(states: seq<State>, es: seq<Event>, k: nat)
    requires Trace(states, es) && k <= |es|
    ensures Structure(states[k])
  {
    if k > 0 {
      TraceStructure(states, es, k - 1);
      assert Enabled(states[k - 1], es[k - 1]);
      StepStructure(states[k - 1], es[k - 1]);
    }
  }

  // ----- results -----

  /** Claims answered new exceed the invalidations by one while the nonce is held, else by none. */
  lemma OneClaimPerEpoch(s: State, key: AuthKey)
    requires Reachable(s)
    ensures |WinsOf(s, key)| == Count(s.invalidations, key) + (if Held(s.nonces, key) then 1 else 0)
  {
    var states, es :| Trace(states, es) && states[|es|] == s;
    TraceLedger(states, es, |es|, key);
  }

  lemma ReachableStructure(s: State)
    requires Reachable(s)
    ensures Structure(s)
  {
    var states, es :| Trace(states, es) && states[|es|] == s;
    TraceStructure(states, es, |es|);
  }

  lemma {:induction false} ImageSize(ids: set<string>, f: map<string, TaskId>, image: set<TaskId>)
    requires ids <= f.Keys
    requires forall id, id' :: id in ids && id' in ids && f[id] == f[id'] ==> id == id'
    requires forall id :: id in ids ==> f[id] in image
    ensures |ids| <= |image|
  {
    if ids != {} {
      var id :| id in ids;
      ImageSize(ids - {id}, f, image - {f[id]});
    }
  }

  /** An authorization never has more event rows than one per reorg epoch. */
  lemma RowsPerEpoch(s: State, key: AuthKey)
    requires Reachable(s)
    ensures |RowsOf(s, key)| <= Count(s.invalidations, key) + (if Held(s.nonces, key) then 1 else 0)
  {
    ReachableStructure(s);
    ImageSize(RowsOf(s, key), s.inserter, WinsOf(s, key));
    OneClaimPerEpoch(s, key);
  }

  /** A Goldsky delivery that met a facilitator claim inserts nothing, and the row it is to promote
      belongs to the very authorization it delivers. */
  lemma CorrelationUpdatesOwnRow(s: State, t: TaskId)
    requires Reachable(s) && t in s.tasks && (s.tasks[t].Correlated? || s.tasks[t].Promoted?)
    ensures forall id :: id in s.inserter ==> s.inserter[id] != t
    ensures s.tasks[t].id in s.rows ==> RowKey(s.rows[s.tasks[t].id]) == KeyOf(s.tasks[t].transfer)
  {
    ReachableStructure(s);
    assert TaskOk(s, t, s.tasks[t]);
  }

  lemma AnonymousStep(s: State, e: Event, key: AuthKey)
    requires Enabled(s, e) && Held(s.nonces, key) && s.nonces[key].eventId == None
    ensures key in Step(s, e).nonces && Step(s, e).nonces[key] == s.nonces[key]
    ensures WinsOf(Step(s, e), key) == WinsOf(s, key)
  {
    if ClaimEvent(e) {
      ClaimEffect(s, e);
      ClaimStepEffect(s, e);
    } else if e.Invalidate? && e.ok {
      InvalidateEffect(s, e.t);
    }
  }

  /** A claim without an event id is never invalidated: Goldsky claims survive every reorg, in every run,
      and every later claim of the authorization is answered duplicate. */
  lemma {:induction false} AnonymousClaimIsForever(s: State, es: seq<Event>, key: AuthKey)
    requires ValidRun(s, es) && Held(s.nonces, key) && s.nonces[key].eventId == None
    ensures var s' := Run(s, es); Held(s'.nonces, key) && s'.nonces[key] == s.nonces[key]
    ensures WinsOf(Run(s, es), key) == WinsOf(s, key)
    decreases |es|
  {
    if es != [] {
      AnonymousStep(s, es[0], key);
      AnonymousClaimIsForever(Step(s, es[0]), es[1..], key);
    }
  }

  /**
   What a reorg frees: the authorization of the reorged row exactly if its nonce carries the row's event
   id, as facilitator claims do and Goldsky claims do not, and no other authorization at all.
   */
  lemma ReorgFreesIff(s: State, t: TaskId, key: AuthKey)
    requires Reachable(s) && Enabled(s, Invalidate(t, true)) && Held(s.nonces, key)
    ensures var ReorgMarked(id, row) := s.tasks[t];
      !Held(Step(s, Invalidate(t, true)).nonces, key)
      <==> key == RowKey(row) && s.nonces[key].eventId == Some(id)
  {
    ReachableStructure(s);
    assert TaskOk(s, t, s.tasks[t]);
    InvalidateEffect(s, t);
  }
}
