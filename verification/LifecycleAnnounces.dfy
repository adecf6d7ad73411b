/** What each step writes to the events table, and what its task then announces: they tell the same. */
module LifecycleAnnounces {
  import opened Wrappers
  import opened Finality
  import opened Tables
  import opened Lifecycle
  import opened LifecycleStatus
  import Dispatch

  /** A task is about to announce this type of this transfer, with this finality. */
  predicate WillSay(s: State, t: TaskId, eventType: EventType, transfer: Transfer, finality: Option<FinalityStatus>) {
    t in s.tasks && s.tasks[t].Ready? && s.tasks[t].eventType == eventType
    && s.tasks[t].transfer == transfer && s.tasks[t].finality == finality
  }

  predicate Says(s: State, t: TaskId, eventType: EventType) {
    t in s.tasks && s.tasks[t].Ready? && s.tasks[t].eventType == eventType
  }

  predicate Shows(s: State, id: string, status: Status) {
    id in s.rows && s.rows[id].status == status
  }

  /** The row keeps every column of the transfer. */
  predicate Stores(row: Row, transfer: Transfer) {
    row.chain == transfer.chain && row.tx == transfer.tx && row.block == transfer.block
    && row.blockHash == transfer.blockHash && row.logIndex == transfer.logIndex
    && row.authorizer == transfer.authorizer && row.nonce == transfer.nonce && row.recipient == transfer.recipient
  }

  /** A key is free if nobody claimed it or a reorg gave it back. */
  predicate Free(s: State, key: AuthKey) {
    key !in s.nonces || s.nonces[key].reorged
  }

  /** A post takes a free nonce with its event id and goes on; a held one ends it. */
  lemma PostClaims(s: State, t: TaskId, transfer: Transfer, id: string)
    ensures var s', key := PostStep(s, t, transfer, id), KeyOf(transfer);
      if Free(s, key)
      then s'.tasks == s.tasks[t := Posted(id, transfer)] && s'.nonces == s.nonces[key := s'.nonces[key]]
           && s'.nonces[key].eventId == Some(id) && s'.nonces[key].source == FacilitatorPath
           && !s'.nonces[key].reorged
      else s'.tasks == s.tasks && s'.nonces == s.nonces
  {}

  /** A delivery takes a free nonce without an id; it correlates with a facilitator's, and drops any other. */
  lemma DeliveryClaims(s: State, t: TaskId, transfer: Transfer)
    ensures var s', key := DeliverStep(s, t, transfer), KeyOf(transfer);
      if Free(s, key)
      then s'.tasks == s.tasks[t := Delivered(transfer)] && s'.nonces == s.nonces[key := s'.nonces[key]]
           && s'.nonces[key].eventId == None && s'.nonces[key].source == GoldskyPath && !s'.nonces[key].reorged
      else s'.nonces == s.nonces
           && s'.tasks == if s.nonces[key].source == FacilitatorPath && s.nonces[key].eventId.Some?
                          then s.tasks[t := Correlated(s.nonces[key].eventId.value, transfer)] else s.tasks
  {}

  /** A dynamic trigger takes a free nonce too, and drops a held one. */
  lemma TriggerClaims(s: State, t: TaskId, transfer: Transfer)
    ensures var s', key := TriggerStep(s, t, transfer), KeyOf(transfer);
      if Free(s, key)
      then s'.tasks == s.tasks[t := TriggerDelivered(transfer)] && s'.nonces == s.nonces[key := s'.nonces[key]]
           && s'.nonces[key].eventId == None && !s'.nonces[key].reorged
      else s'.tasks == s.tasks && s'.nonces == s.nonces
  {}

  /** Whom a task may tell: the ingest stage and triggers only who is deep enough, background tasks by webhook only. */
  lemma EmitsIff(task: Task, ep: Endpoint, channel: Channel)
    ensures CanEmit(task, ep, channel)
      <==> (task.Ready? && (task.origin == Ingest ==> Dispatch.DeepEnough(ep, task.transfer.chain, task.finality))
            && (task.origin == Background ==> channel == Webhook))
           || (task.TriggerReady? && Dispatch.DeepEnough(ep, task.transfer.chain, task.finality))
  {}

  /** The fast path stores a pre-confirmed row under the id it claimed with, and says so, without finality. */
  lemma PostSays(s: State, t: TaskId)
    requires t in s.tasks && s.tasks[t].Posted? && s.tasks[t].id !in s.rows
    ensures var Posted(id, transfer) := s.tasks[t];
      var s' := RecordPostedStep(s, t, true);
      Shows(s', id, PreConfirmed) && Stores(s'.rows[id], transfer) && s'.rows[id].depth == 0
      && WillSay(s', t, PaymentPreConfirmed, transfer, None)
  {}

  /** An ingested row is confirmed with `payment.confirmed` and pending with `payment.pending`, as its finality says. */
  lemma IngestSays(s: State, t: TaskId, id: string)
    requires t in s.tasks && s.tasks[t].Checked? && id !in s.rows
    ensures var Checked(transfer, finality) := s.tasks[t];
      var s' := RecordIngestStep(s, t, id, true);
      var final := finality.Some? && finality.value.isFinalized;
      (Shows(s', id, Confirmed) <==> final) && (Shows(s', id, Pending) <==> !final)
      && (Says(s', t, PaymentConfirmed) <==> final) && (Says(s', t, PaymentPending) <==> !final)
      && Stores(s'.rows[id], transfer)
      && s'.rows[id].depth == (if finality.Some? then finality.value.confirmations else 0)
      && s'.tasks[t].transfer == transfer && s'.tasks[t].finality == finality
  {}

  /** What a delivery finds out at a head, or without one: nothing if it has no block or the RPC failed. */
  lemma DeliveryChecks(s: State, t: TaskId, head: Option<int>)
    requires t in s.tasks && (s.tasks[t].Delivered? || s.tasks[t].TriggerDelivered?)
    ensures var transfer, s' := s.tasks[t].transfer, ObserveStep(s, t, head);
      t in s'.tasks && s'.tasks[t].transfer == transfer
      && (if s.tasks[t].Delivered? then s'.tasks[t].Checked? else s'.tasks[t].TriggerReady?)
      && (s'.tasks[t].finality.None? <==> head.None? || transfer.block == 0)
      && (s'.tasks[t].finality.Some? ==> var f := s'.tasks[t].finality.value;
            f.required == DefaultDepth(transfer.chain)
            && (head.value >= transfer.block ==> transfer.block + f.confirmations == head.value)
            && (f.isFinalized <==> head.value - transfer.block >= DefaultDepth(transfer.chain)))
  {}

  /** Promotion confirms the row at the delivered block and keeps its authorization and recipient. */
  lemma PromotionWrites(s: State, t: TaskId)
    requires t in s.tasks && s.tasks[t].Correlated? && s.tasks[t].id in s.rows
    ensures var Correlated(id, transfer) := s.tasks[t];
      var s' := PromoteStep(s, t);
      Shows(s', id, Confirmed)
      && s'.rows[id].tx == transfer.tx && s'.rows[id].block == transfer.block
      && s'.rows[id].blockHash == transfer.blockHash && s'.rows[id].logIndex == transfer.logIndex
      && s'.rows[id].chain == s.rows[id].chain && s'.rows[id].nonce == s.rows[id].nonce
      && s'.rows[id].authorizer == s.rows[id].authorizer && s'.rows[id].recipient == s.rows[id].recipient
      && s'.rows[id].depth == s.rows[id].depth
      && t in s'.tasks && s'.tasks[t] == Promoted(id, transfer)
  {}

  /** It then says finalized exactly if the head it asks for is deep enough by the chain default, else confirmed. */
  lemma PromotionSays(s: State, t: TaskId, head: Option<int>)
    requires t in s.tasks && s.tasks[t].Promoted?
    ensures var transfer, s' := s.tasks[t].transfer, ObserveStep(s, t, head);
      var final := head.Some? && head.value - transfer.block >= DefaultDepth(transfer.chain);
      (Says(s', t, PaymentFinalized) <==> final) && (Says(s', t, PaymentConfirmed) <==> !final)
      && s'.tasks[t].transfer == transfer && s'.rows == s.rows
      && (s'.tasks[t].finality.None? <==> head.None?)
  {}

  /** The poller's type is the status it has just written, with the row of its snapshot and the depth stored then. */
  lemma PollSays(s: State, t: TaskId)
    requires t in s.tasks && s.tasks[t].Deepened? && s.tasks[t].id in s.rows
    ensures var Deepened(id, row, _) := s.tasks[t];
      var s' := WriteStatusStep(s, t);
      (Shows(s', id, Confirmed) <==> row.status == Pending) && (Shows(s', id, Finalized) <==> row.status != Pending)
      && (Says(s', t, PaymentConfirmed) <==> Shows(s', id, Confirmed))
      && (Says(s', t, PaymentFinalized) <==> Shows(s', id, Finalized))
      && Stores(row, s'.tasks[t].transfer)
      && s'.tasks[t].finality.Some? && s'.tasks[t].finality.value.confirmations == row.depth
      && s'.tasks[t].finality.value.required == DefaultDepth(row.chain)
  {}

  /** A reorg marks the row first and frees the nonce next; what it then says is the reorg, without finality. */
  lemma ReorgSays(s: State, t: TaskId, ok: bool)
    requires t in s.tasks && s.tasks[t].AtHead? && s.tasks[t].id in s.rows
    ensures var AtHead(id, row, _) := s.tasks[t];
      var s1 := MarkReorgedStep(s, t);
      var s2 := InvalidateStep(s1, t, ok);
      Shows(s1, id, Reorged) && Shows(s2, id, Reorged)
      && Says(s2, t, PaymentReorged) && s2.tasks[t].finality.None? && Stores(row, s2.tasks[t].transfer)
  {}

  /** An expiry fails the row and says so, of the row of its snapshot. */
  lemma ExpirySays(s: State, t: TaskId)
    requires t in s.tasks && s.tasks[t].Swept? && s.tasks[t].id in s.rows
    ensures var Swept(id, row) := s.tasks[t];
      var s' := ExpireStep(s, t);
      Shows(s', id, Failed) && Says(s', t, PaymentFailed)
      && s'.tasks[t].finality.None? && Stores(row, s'.tasks[t].transfer)
  {}

  /** A dynamic trigger's row is finalized exactly if its payload tells the consumer to act. */
  lemma TriggerSays(s: State, t: TaskId, id: string, ep: Endpoint)
    requires t in s.tasks && s.tasks[t].TriggerReady? && id !in s.rows
    ensures var TriggerReady(transfer, finality) := s.tasks[t];
      var s' := RecordTriggerStep(s, t, id, true);
      (Shows(s', id, Finalized) <==> TriggerPayload(ep, transfer, finality).execution.safe)
      && (Shows(s', id, Confirmed) <==> !TriggerPayload(ep, transfer, finality).execution.safe)
      && Stores(s'.rows[id], transfer) && t !in s'.tasks
  {}

  // ----- payloads and the API agree -----

  function Told(p: Payload): (ExecutionState, bool, TrustSource) {
    (p.execution.state, p.execution.safe, p.execution.trust)
  }

  /** The type that goes with a status written. */
  predicate Pair(eventType: EventType, status: Status) {
    match status
    case PreConfirmed => eventType == PaymentPreConfirmed
    case Reorged => eventType == PaymentReorged
    case Failed => eventType == PaymentFailed
    case Finalized => eventType == PaymentFinalized
    case Confirmed => eventType == PaymentConfirmed
    case Pending => eventType == PaymentPending
  }

  /**
   What a payload tells equals what the API derives from the status just written: always for a pre-confirmed,
   reorged, failed or finalized row, and for a confirmed or pending one exactly if it does not say safe.
   */
  lemma PayloadAgreesWithStatus(
    ep: Endpoint, transfer: Transfer, eventType: EventType, finality: Option<FinalityStatus>, status: Status)
    requires Pair(eventType, status)
    ensures var webhook, notice := WebhookPayload(ep, transfer, eventType, finality),
                                   NotifyPayload(ep, transfer, eventType, finality);
      if status in {PreConfirmed, Reorged, Failed, Finalized}
      then Told(webhook) == ExecutionOfStatus(status) == Told(notice)
      else (Told(webhook) == ExecutionOfStatus(status) <==> !webhook.execution.safe)
           && (Told(notice) == ExecutionOfStatus(status) <==> !notice.execution.safe)
  {
    WebhookTells(ep, transfer, eventType, finality);
    NotifyTells(ep, transfer, eventType, finality);
  }

  /** Right after a reorg or an expiry, every payload its task may send tells what the API tells of the row. */
  lemma ReorgAndExpiryAgree(s: State, t: TaskId, ok: bool, ep: Endpoint)
    requires t in s.tasks && (s.tasks[t].AtHead? || s.tasks[t].Swept?) && s.tasks[t].id in s.rows
    ensures var id := s.tasks[t].id;
      var s' := if s.tasks[t].AtHead? then InvalidateStep(MarkReorgedStep(s, t), t, ok) else ExpireStep(s, t);
      CanEmit(s'.tasks[t], ep, Webhook)
      && Told(PayloadOf(s'.tasks[t], ep, Webhook)) == ExecutionOfStatus(s'.rows[id].status)
      && Told(PayloadOf(s'.tasks[t], ep, Webhook)) == (ReorgedState, false, Onchain)
  {
    if s.tasks[t].AtHead? {
      ReorgSays(s, t, ok);
      PayloadAgreesWithStatus(ep, Reconstruct(s.tasks[t].row), PaymentReorged, None, Reorged);
    } else {
      ExpirySays(s, t);
      PayloadAgreesWithStatus(ep, Reconstruct(s.tasks[t].row), PaymentFailed, None, Failed);
    }
  }
}
