/**
 The life of a payment event as interleaved steps over the shared tables.

 Every request, delivery, poll and sweep is a task; a step is what one task does
 between two awaits. Any number of tasks run, in any order, and may stop anywhere.
 One poll cycle is as many `Poll` tasks as it fetched rows.
 */
module Lifecycle {
  import opened Wrappers
  import opened Finality
  import opened Tables
  import Dispatch

  type TaskId = nat

  /** Who prepared a dispatch: the ingest stage gates by depth, background tasks use webhooks only. */
  datatype Origin = Ingest | Promotion | Background

  datatype Channel = Webhook | Realtime

  datatype Task =
    | Posted(id: string, transfer: Transfer)                   // facilitator claim answered new
    | Delivered(transfer: Transfer)                            // Goldsky claim answered new
    | Checked(transfer: Transfer, finality: Option<FinalityStatus>)
    | Correlated(id: string, transfer: Transfer)               // Goldsky met a facilitator claim
    | Promoted(id: string, transfer: Transfer)
    | TriggerDelivered(transfer: Transfer)                     // dynamic trigger claim answered new
    | TriggerReady(transfer: Transfer, finality: Option<FinalityStatus>)
    | Polled(id: string, row: Row)                             // the poller's snapshot of a row
    | AtHead(id: string, row: Row, head: int)
    | Deepened(id: string, row: Row, head: int)
    | ReorgMarked(id: string, row: Row)
    | Swept(id: string, row: Row)                              // the sweeper's snapshot of a row
    | Ready(transfer: Transfer, eventType: EventType, finality: Option<FinalityStatus>, origin: Origin)

  datatype State = State(
    nonces: Nonces,
    rows: map<string, Row>,
    tasks: map<TaskId, Task>,
    observed: set<(Chain, int)>,        // heads any RPC call has returned
    payloads: set<Payload>,             // payloads built so far
    // history
    wins: map<TaskId, AuthKey>,         // claims answered new
    inserter: map<string, TaskId>,      // which task inserted each row
    owner: map<string, AuthKey>,        // the authorization each event id was generated for
    invalidations: map<AuthKey, nat>)

  datatype Event =
    | Post(t: TaskId, transfer: Transfer, id: string)
    | Deliver(t: TaskId, transfer: Transfer)
    | DeliverTrigger(t: TaskId, transfer: Transfer)
    | RecordPosted(t: TaskId, stored: bool)
    | Observe(t: TaskId, head: Option<int>)
    | Record(t: TaskId, id: string, stored: bool)
    | Promote(t: TaskId)
    | Poll(t: TaskId, id: string)
    | MarkReorged(t: TaskId, canonical: string)
    | Invalidate(t: TaskId, ok: bool)
    | WriteDepth(t: TaskId)
    | WriteStatus(t: TaskId)
    | Sweep(t: TaskId, id: string)
    | Expire(t: TaskId)
    | Emit(t: TaskId, ep: Endpoint, channel: Channel)
    | Stop(t: TaskId)

  function Init(): State {
    State(map[], map[], map[], {}, {}, map[], map[], map[], map[])
  }

  // ----- elementary updates -----

  function Put(s: State, t: TaskId, task: Task): State {
    s.(tasks := s.tasks[t := task])
  }

  function Drop(s: State, t: TaskId): State {
    s.(tasks := s.tasks - {t})
  }

  function See(s: State, chain: Chain, head: int): State {
    s.(observed := s.observed + {(chain, head)})
  }

  function SetRow(s: State, id: string, row: Row): State {
    s.(rows := s.rows[id := row])
  }

  /** A claim with the nonce table it leaves; if answered new, its task has won the authorization. */
  function Claim(s: State, t: TaskId, key: AuthKey, after: Nonces): State {
    s.(nonces := after, wins := if AnswerFor(s.nonces, key).Fresh? then s.wins[t := key] else s.wins)
  }

  function Generate(s: State, id: string, key: AuthKey): State {
    s.(owner := s.owner[id := key])
  }

  function InsertRow(s: State, t: TaskId, id: string, row: Row): State {
    s.(rows := s.rows[id := row], inserter := s.inserter[id := t], owner := s.owner[id := RowKey(row)])
  }

  function Count(m: map<AuthKey, nat>, key: AuthKey): nat {
    if key in m then m[key] else 0
  }

  function InvalidateNonces(s: State, id: string): State {
    s.(nonces := AfterInvalidation(s.nonces, id),
       invalidations := map key | key in s.nonces.Keys + s.invalidations.Keys ::
         Count(s.invalidations, key) + if Invalidated(s.nonces, key, id) then 1 else 0)
  }

  /** Who won which authorization, how often, and who holds it now. */
  predicate SameBooks(s: State, s': State) {
    s'.wins == s.wins && s'.nonces == s.nonces && s'.invalidations == s.invalidations
  }

  // ----- one step -----

  predicate NewTask(s: State, t: TaskId) {
    t !in s.tasks && t !in s.wins
  }

  /** uuid4: an id no row or claim has used. */
  predicate NewId(s: State, id: string) {
    id !in s.owner && id !in s.rows
  }

  predicate CanEmit(task: Task, ep: Endpoint, channel: Channel) {
    match task
    case Ready(transfer, _, finality, origin) =>
      (origin == Ingest ==> Dispatch.DepthReached(finality, transfer.chain, ep))
      && (origin == Background ==> channel == Webhook)
    case TriggerReady(transfer, finality) => Dispatch.DepthReached(finality, transfer.chain, ep)
    case _ => false
  }

  predicate Enabled(s: State, e: Event) {
    match e
    case Post(t, transfer, id) => NewTask(s, t) && NewId(s, id)
    case Deliver(t, transfer) => NewTask(s, t)
    case DeliverTrigger(t, transfer) => NewTask(s, t)
    case RecordPosted(t, stored) => t in s.tasks && s.tasks[t].Posted?
    case Observe(t, head) => t in s.tasks && Observing(s.tasks[t]) && (s.tasks[t].Polled? ==> head.Some?)
    case Record(t, id, stored) => t in s.tasks && NewId(s, id) && (s.tasks[t].Checked? || s.tasks[t].TriggerReady?)
    case Promote(t) => t in s.tasks && s.tasks[t].Correlated?
    case Poll(t, id) => NewTask(s, t) && id in s.rows && Open(s.rows[id])
    case MarkReorged(t, canonical) =>
      t in s.tasks && s.tasks[t].AtHead? && HashDiffers(s.tasks[t].row, canonical)
    case Invalidate(t, ok) => t in s.tasks && s.tasks[t].ReorgMarked?
    case WriteDepth(t) => t in s.tasks && s.tasks[t].AtHead?
    case WriteStatus(t) => t in s.tasks && s.tasks[t].Deepened?
    case Sweep(t, id) => NewTask(s, t) && id in s.rows && s.rows[id].status == PreConfirmed
    case Expire(t) => t in s.tasks && s.tasks[t].Swept?
    case Emit(t, ep, channel) => t in s.tasks && CanEmit(s.tasks[t], ep, channel)
    case Stop(t) => t in s.tasks
  }

  function PayloadOf(task: Task, ep: Endpoint, channel: Channel): Payload
    requires CanEmit(task, ep, channel)
  {
    match task
    case Ready(transfer, eventType, finality, _) =>
      if channel == Webhook then WebhookPayload(ep, transfer, eventType, finality)
      else NotifyPayload(ep, transfer, eventType, finality)
    case TriggerReady(transfer, finality) => TriggerPayload(ep, transfer, finality)
  }

  function Checks(transfer: Transfer, head: Option<int>): Option<FinalityStatus> {
    if head.Some? then Some(CheckFinality(transfer.chain, transfer.block, head.value, None)) else None
  }

  function Seen(s: State, chain: Chain, head: Option<int>): State {
    if head.Some? then See(s, chain, head.value) else s
  }

  predicate Observing(task: Task) {
    task.Delivered? || task.TriggerDelivered? || task.Promoted? || task.Polled?
  }

  function ChainOf(task: Task): Chain
    requires Observing(task)
  {
    if task.Polled? then task.row.chain else task.transfer.chain
  }

  /** The head a task asks for; a delivery without a block number does not ask. */
  function Asked(task: Task, head: Option<int>): Option<int>
    requires Observing(task)
  {
    if (task.Delivered? || task.TriggerDelivered?) && task.transfer.block == 0 then None else head
  }

  function PromotionType(finality: Option<FinalityStatus>): EventType {
    if finality.Some? && finality.value.isFinalized then PaymentFinalized else PaymentConfirmed
  }

  function AfterObserve(task: Task, head: Option<int>): Task
    requires Observing(task) && (task.Polled? ==> head.Some?)
  {
    match task
    case Delivered(transfer) => Checked(transfer, Checks(transfer, Asked(task, head)))
    case TriggerDelivered(transfer) => TriggerReady(transfer, Checks(transfer, Asked(task, head)))
    case Promoted(id, transfer) =>
      var finality := Checks(transfer, head);
      Ready(transfer, PromotionType(finality), finality, Promotion)
    case Polled(id, row) => AtHead(id, row, head.value)
  }

  function ObserveStep(s: State, t: TaskId, head: Option<int>): (s': State)
    requires Enabled(s, Observe(t, head))
    ensures SameBooks(s, s')
  {
    var task := s.tasks[t];
    Put(Seen(s, ChainOf(task), Asked(task, head)), t, AfterObserve(task, head))
  }

  function PostStep(s: State, t: TaskId, transfer: Transfer, id: string): State {
    var key := KeyOf(transfer);
    var s' := Generate(Claim(s, t, key, AfterClaim(s.nonces, key, Some(id), FacilitatorPath)), id, key);
    if AnswerFor(s.nonces, key).Fresh? then Put(s', t, Posted(id, transfer)) else s'
  }

  function DeliverStep(s: State, t: TaskId, transfer: Transfer): State {
    var s' := Claim(s, t, KeyOf(transfer), AfterClaim(s.nonces, KeyOf(transfer), None, GoldskyPath));
    match AnswerFor(s.nonces, KeyOf(transfer))
    case Fresh => Put(s', t, Delivered(transfer))
    case Duplicate(Some(id), FacilitatorPath) => Put(s', t, Correlated(id, transfer))
    case Duplicate(_, _) => s'
  }

  function TriggerStep(s: State, t: TaskId, transfer: Transfer): State {
    var s' := Claim(s, t, KeyOf(transfer), AfterPlainClaim(s.nonces, KeyOf(transfer)));
    if AnswerFor(s.nonces, KeyOf(transfer)).Fresh? then Put(s', t, TriggerDelivered(transfer)) else s'
  }

  function RecordPostedStep(s: State, t: TaskId, stored: bool): (s': State)
    requires t in s.tasks && s.tasks[t].Posted?
    ensures SameBooks(s, s')
  {
    var Posted(id, transfer) := s.tasks[t];
    var ready := Ready(transfer, PaymentPreConfirmed, None, Ingest);
    if stored && id !in s.rows then Put(InsertRow(s, t, id, RowFor(transfer, PreConfirmed, 0)), t, ready)
    else Put(s, t, ready)
  }

  function RecordIngestStep(s: State, t: TaskId, id: string, stored: bool): (s': State)
    requires t in s.tasks && s.tasks[t].Checked?
    ensures SameBooks(s, s')
  {
    var Checked(transfer, finality) := s.tasks[t];
    var ready := Ready(transfer, Dispatch.IngestType(None, finality), finality, Ingest);
    if stored then Put(InsertRow(s, t, id, RowFor(transfer, IngestStatus(finality), StoredDepth(finality))), t, ready)
    else Put(s, t, ready)
  }

  function TriggerStatus(finality: Option<FinalityStatus>): Status {
    if finality.Some? && finality.value.isFinalized then Finalized else Confirmed
  }

  function RecordTriggerStep(s: State, t: TaskId, id: string, stored: bool): (s': State)
    requires t in s.tasks && s.tasks[t].TriggerReady?
    ensures SameBooks(s, s')
  {
    var TriggerReady(transfer, finality) := s.tasks[t];
    if stored then Drop(InsertRow(s, t, id, RowFor(transfer, TriggerStatus(finality), StoredDepth(finality))), t)
    else Drop(s, t)
  }

  /** An UPDATE that found no row changes nothing. */
  function SetStatus(s: State, id: string, status: Status): State {
    if id in s.rows then SetRow(s, id, s.rows[id].(status := status)) else s
  }

  function SetDepth(s: State, id: string, depth: nat): State {
    if id in s.rows then SetRow(s, id, s.rows[id].(depth := depth)) else s
  }

  function PromoteStep(s: State, t: TaskId): (s': State)
    requires t in s.tasks && s.tasks[t].Correlated?
    ensures SameBooks(s, s')
  {
    var Correlated(id, transfer) := s.tasks[t];
    if id in s.rows then Put(SetRow(s, id, PromotedRow(s.rows[id], transfer)), t, Promoted(id, transfer))
    else Drop(s, t)
  }

  function MarkReorgedStep(s: State, t: TaskId): (s': State)
    requires t in s.tasks && s.tasks[t].AtHead?
    ensures SameBooks(s, s')
  {
    Put(SetStatus(s, s.tasks[t].id, Reorged), t, ReorgMarked(s.tasks[t].id, s.tasks[t].row))
  }

  function InvalidateStep(s: State, t: TaskId, ok: bool): State
    requires t in s.tasks && s.tasks[t].ReorgMarked?
  {
    var ready := Ready(Reconstruct(s.tasks[t].row), PaymentReorged, None, Background);
    Put(if ok then InvalidateNonces(s, s.tasks[t].id) else s, t, ready)
  }

  function WriteDepthStep(s: State, t: TaskId): (s': State)
    requires t in s.tasks && s.tasks[t].AtHead?
    ensures SameBooks(s, s')
  {
    var AtHead(id, row, head) := s.tasks[t];
    var confirmations := Confirmations(head, row.block);
    var s' := SetDepth(s, id, confirmations);
    if confirmations >= DefaultDepth(row.chain) then Put(s', t, Deepened(id, row, head)) else Drop(s', t)
  }

  /** The payload announced by the poller shows the depth stored before this poll. */
  function PollerReady(row: Row): Task {
    Ready(Reconstruct(row), if row.status == Pending then PaymentConfirmed else PaymentFinalized,
          Some(FinalityStatus(row.depth, DefaultDepth(row.chain), true)), Background)
  }

  function WriteStatusStep(s: State, t: TaskId): (s': State)
    requires t in s.tasks && s.tasks[t].Deepened?
    ensures SameBooks(s, s')
  {
    var Deepened(id, row, head) := s.tasks[t];
    Put(SetStatus(s, id, NextStatus(row.status)), t, PollerReady(row))
  }

  function ExpireStep(s: State, t: TaskId): (s': State)
    requires t in s.tasks && s.tasks[t].Swept?
    ensures SameBooks(s, s')
  {
    Put(SetStatus(s, s.tasks[t].id, Failed), t,
        Ready(Reconstruct(s.tasks[t].row), PaymentFailed, None, Background))
  }

  function EmitStep(s: State, t: TaskId, ep: Endpoint, channel: Channel): (s': State)
    requires t in s.tasks && CanEmit(s.tasks[t], ep, channel)
    ensures SameBooks(s, s')
  {
    s.(payloads := s.payloads + {PayloadOf(s.tasks[t], ep, channel)})
  }

  predicate ClaimEvent(e: Event) {
    e.Post? || e.Deliver? || e.DeliverTrigger?
  }

  function Step(s: State, e: Event): (s': State)
    requires Enabled(s, e)
    ensures !ClaimEvent(e) && !(e.Invalidate? && e.ok) ==> SameBooks(s, s')
  {
    match e
    case Post(t, transfer, id) => PostStep(s, t, transfer, id)
    case Deliver(t, transfer) => DeliverStep(s, t, transfer)
    case DeliverTrigger(t, transfer) => TriggerStep(s, t, transfer)
    case RecordPosted(t, stored) => RecordPostedStep(s, t, stored)
    case Observe(t, head) => ObserveStep(s, t, head)
    case Record(t, id, stored) =>
      if s.tasks[t].Checked? then RecordIngestStep(s, t, id, stored) else RecordTriggerStep(s, t, id, stored)
    case Promote(t) => PromoteStep(s, t)
    case Poll(t, id) => Put(s, t, Polled(id, s.rows[id]))
    case MarkReorged(t, canonical) => MarkReorgedStep(s, t)
    case Invalidate(t, ok) => InvalidateStep(s, t, ok)
    case WriteDepth(t) => WriteDepthStep(s, t)
    case WriteStatus(t) => WriteStatusStep(s, t)
    case Sweep(t, id) => Put(s, t, Swept(id, s.rows[id]))
    case Expire(t) => ExpireStep(s, t)
    case Emit(t, ep, channel) => EmitStep(s, t, ep, channel)
    case Stop(t) => Drop(s, t)
  }

  // ----- runs -----

  predicate ValidRun(s: State, es: seq<Event>)
    decreases |es|
  {
    es == [] || (Enabled(s, es[0]) && ValidRun(Step(s, es[0]), es[1..]))
  }

  function Run(s: State, es: seq<Event>): State
    requires ValidRun(s, es)
    decreases |es|
  {
    if es == [] then s else Run(Step(s, es[0]), es[1..])
  }

  /** The states a run passes through, one more than its events. */
  ghost predicate Trace(states: seq<State>, es: seq<Event>) {
    |states| == |es| + 1 && states[0] == Init()
    && forall i {:trigger es[i]} :: 0 <= i < |es| ==>
         Enabled(states[i], es[i]) && states[i + 1] == Step(states[i], es[i])
  }

  ghost predicate Reachable(s: State) {
    exists states: seq<State>, es: seq<Event> :: Trace(states, es) && states[|es|] == s
  }

  lemma InitReachable()
    ensures Reachable(Init())
  {
    assert Trace([Init()], []);
  }

  lemma StepReachable(s: State, e: Event)
    requires Reachable(s) && Enabled(s, e)
    ensures Reachable(Step(s, e))
  {
    var states, es :| Trace(states, es) && states[|es|] == s;
    var states', es' := states + [Step(s, e)], es + [e];
    forall i {:trigger es'[i]} | 0 <= i < |es'|
      ensures Enabled(states'[i], es'[i]) && states'[i + 1] == Step(states'[i], es'[i])
    {
      if i < |es| {
        assert es'[i] == es[i];
      }
    }
    assert Trace(states', es') && states'[|es'|] == Step(s, e);
  }

  /** A run from a reachable state stays among the reachable ones. */
  lemma {:induction false} RunReachable(s: State, es: seq<Event>)
    requires Reachable(s) && ValidRun(s, es)
    ensures Reachable(Run(s, es))
    decreases |es|
  {
    if es != [] {
      StepReachable(s, es[0]);
      RunReachable(Step(s, es[0]), es[1..]);
    }
  }

  lemma {:induction false} RunSnoc(s: State, es: seq<Event>, e: Event)
    requires ValidRun(s, es) && Enabled(Run(s, es), e)
    ensures ValidRun(s, es + [e]) && Run(s, es + [e]) == Step(Run(s, es), e)
    decreases |es|
  {
    var es' := es + [e];
    if es == [] {
      assert es'[1..] == [] && Run(Step(s, e), []) == Step(s, e);
    } else {
      assert es'[0] == es[0] && es'[1..] == es[1..] + [e];
      RunSnoc(Step(s, es[0]), es[1..], e);
    }
  }

  lemma {:induction false} TraceIsRun(states: seq<State>, es: seq<Event>, k: nat)
    requires Trace(states, es) && k <= |es|
    ensures ValidRun(Init(), es[..k]) && Run(Init(), es[..k]) == states[k]
  {
    if k > 0 {
      TraceIsRun(states, es, k - 1);
      assert Enabled(states[k - 1], es[k - 1]);
      RunSnoc(Init(), es[..k - 1], es[k - 1]);
      assert es[..k] == es[..k - 1] + [es[k - 1]];
    }
  }

  /** The reachable states are exactly the ends of runs. */
  lemma ReachableRun(s: State) returns (es: seq<Event>)
    requires Reachable(s)
    ensures ValidRun(Init(), es) && Run(Init(), es) == s
  {
    var states, events :| Trace(states, events) && states[|events|] == s;
    TraceIsRun(states, events, |events|);
    es := events[..|events|];
  }
}
