/** Concrete runs in which the lifecycle does not do what one would expect of it. */
module LifecycleGaps {
  import opened Wrappers
  import opened Finality
  import opened Tables
  import opened Lifecycle
  import opened LifecycleSafety
  import LifecycleStatus
  import LifecycleLost

  /** The same authorization, as the facilitator announces it and as the chain delivers it. */
  predicate SamePayment(announced: Transfer, mined: Transfer) {
    KeyOf(announced) == KeyOf(mined) && announced.block == 0 && mined.block > 0
  }

  // ----- single steps of a run, with their whole effect -----

  lemma DoDeliver(s: State, t: TaskId, transfer: Transfer, id: string) returns (s': State)
    requires Reachable(s) && NewTask(s, t)
    requires AnswerFor(s.nonces, KeyOf(transfer)) == Duplicate(Some(id), FacilitatorPath)
    ensures Reachable(s') && s' == s.(tasks := s.tasks[t := Correlated(id, transfer)])
  {
    StepReachable(s, Deliver(t, transfer));
    s' := DeliverStep(s, t, transfer);
  }

  lemma DoRecordPosted(s: State, t: TaskId) returns (s': State)
    requires Reachable(s) && t in s.tasks && s.tasks[t].Posted? && s.tasks[t].id !in s.rows
    ensures Reachable(s')
    ensures var Posted(id, transfer) := s.tasks[t];
      s' == InsertRow(s, t, id, RowFor(transfer, PreConfirmed, 0))
            .(tasks := s.tasks[t := Ready(transfer, PaymentPreConfirmed, None, Ingest)])
  {
    StepReachable(s, RecordPosted(t, true));
    s' := RecordPostedStep(s, t, true);
  }

  lemma DoPromote(s: State, t: TaskId) returns (s': State)
    requires Reachable(s) && t in s.tasks && s.tasks[t].Correlated? && s.tasks[t].id in s.rows
    ensures Reachable(s')
    ensures var Correlated(id, transfer) := s.tasks[t];
      s' == s.(rows := s.rows[id := PromotedRow(s.rows[id], transfer)],
               tasks := s.tasks[t := Promoted(id, transfer)])
  {
    StepReachable(s, Promote(t));
    s' := PromoteStep(s, t);
  }

  lemma DoPromoteInVain(s: State, t: TaskId) returns (s': State)
    requires Reachable(s) && t in s.tasks && s.tasks[t].Correlated? && s.tasks[t].id !in s.rows
    ensures Reachable(s') && s' == s.(tasks := s.tasks - {t})
  {
    StepReachable(s, Promote(t));
    s' := PromoteStep(s, t);
  }

  lemma DoObserve(s: State, t: TaskId, head: int) returns (s': State)
    requires Reachable(s) && t in s.tasks && (s.tasks[t].Promoted? || s.tasks[t].Polled?)
    ensures Reachable(s')
    ensures s' == s.(observed := s.observed + {(ChainOf(s.tasks[t]), head)},
                     tasks := s.tasks[t := AfterObserve(s.tasks[t], Some(head))])
  {
    StepReachable(s, Observe(t, Some(head)));
    s' := ObserveStep(s, t, Some(head));
  }

  lemma DoPoll(s: State, t: TaskId, id: string) returns (s': State)
    requires Reachable(s) && NewTask(s, t) && id in s.rows && Open(s.rows[id])
    ensures Reachable(s') && s' == s.(tasks := s.tasks[t := Polled(id, s.rows[id])])
  {
    StepReachable(s, Poll(t, id));
    s' := Put(s, t, Polled(id, s.rows[id]));
  }

  lemma DoWriteDepth(s: State, t: TaskId) returns (s': State)
    requires Reachable(s) && t in s.tasks && s.tasks[t].AtHead? && s.tasks[t].id in s.rows
    requires Confirmations(s.tasks[t].head, s.tasks[t].row.block) >= DefaultDepth(s.tasks[t].row.chain)
    ensures Reachable(s')
    ensures var AtHead(id, row, head) := s.tasks[t];
      s' == s.(rows := s.rows[id := s.rows[id].(depth := Confirmations(head, row.block))],
               tasks := s.tasks[t := Deepened(id, row, head)])
  {
    StepReachable(s, WriteDepth(t));
    s' := WriteDepthStep(s, t);
  }

  lemma DoWriteStatus(s: State, t: TaskId) returns (s': State)
    requires Reachable(s) && t in s.tasks && s.tasks[t].Deepened? && s.tasks[t].id in s.rows
    ensures Reachable(s')
    ensures var Deepened(id, row, head) := s.tasks[t];
      s' == s.(rows := s.rows[id := s.rows[id].(status := NextStatus(row.status))],
               tasks := s.tasks[t := PollerReady(row)])
  {
    StepReachable(s, WriteStatus(t));
    s' := WriteStatusStep(s, t);
  }

  lemma DoEmit(s: State, t: TaskId, ep: Endpoint) returns (s': State)
    requires Reachable(s) && t in s.tasks && CanEmit(s.tasks[t], ep, Webhook)
    ensures Reachable(s') && s' == s.(payloads := s.payloads + {PayloadOf(s.tasks[t], ep, Webhook)})
  {
    StepReachable(s, Emit(t, ep, Webhook));
    s' := EmitStep(s, t, ep, Webhook);
  }

  lemma DoSweep(s: State, t: TaskId, id: string) returns (s': State)
    requires Reachable(s) && NewTask(s, t) && id in s.rows && s.rows[id].status == PreConfirmed
    ensures Reachable(s') && s' == s.(tasks := s.tasks[t := Swept(id, s.rows[id])])
  {
    StepReachable(s, Sweep(t, id));
    s' := Put(s, t, Swept(id, s.rows[id]));
  }

  lemma DoExpire(s: State, t: TaskId) returns (s': State)
    requires Reachable(s) && t in s.tasks && s.tasks[t].Swept? && s.tasks[t].id in s.rows
    ensures Reachable(s') && s'.nonces == s.nonces && s'.tasks.Keys == s.tasks.Keys
    ensures s'.rows == s.rows[s.tasks[t].id := s.rows[s.tasks[t].id].(status := Failed)]
    ensures forall u :: u in s.tasks && u != t ==> s'.tasks[u] == s.tasks[u]
  {
    StepReachable(s, Expire(t));
    s' := ExpireStep(s, t);
  }

  lemma DoCheck(s: State, t: TaskId) returns (s': State)
    requires Reachable(s) && t in s.tasks && s.tasks[t].Delivered?
    ensures Reachable(s') && s' == s.(tasks := s.tasks[t := Checked(s.tasks[t].transfer, None)])
  {
    StepReachable(s, Observe(t, None));
    s' := ObserveStep(s, t, None);
  }

  lemma DoRecord(s: State, t: TaskId, id: string) returns (s': State)
    requires Reachable(s) && t in s.tasks && s.tasks[t].Checked? && s.tasks[t].finality == None && NewId(s, id)
    ensures Reachable(s')
    ensures s' == InsertRow(s, t, id, RowFor(s.tasks[t].transfer, Pending, 0))
                    .(tasks := s.tasks[t := Ready(s.tasks[t].transfer, PaymentPending, None, Ingest)])
  {
    StepReachable(s, Record(t, id, true));
    s' := RecordIngestStep(s, t, id, true);
  }

  lemma DoMarkReorged(s: State, t: TaskId, canonical: string) returns (s': State)
    requires Reachable(s) && t in s.tasks && s.tasks[t].AtHead? && s.tasks[t].id in s.rows
    requires HashDiffers(s.tasks[t].row, canonical)
    ensures Reachable(s')
    ensures var AtHead(id, row, _) := s.tasks[t];
      s' == s.(rows := s.rows[id := s.rows[id].(status := Reorged)], tasks := s.tasks[t := ReorgMarked(id, row)])
  {
    StepReachable(s, MarkReorged(t, canonical));
    s' := MarkReorgedStep(s, t);
  }

  lemma DoInvalidate(s: State, t: TaskId) returns (s': State)
    requires Reachable(s) && t in s.tasks && s.tasks[t].ReorgMarked?
    ensures Reachable(s') && s'.rows == s.rows && s'.nonces == AfterInvalidation(s.nonces, s.tasks[t].id)
    ensures s'.tasks == s.tasks[t := Ready(Reconstruct(s.tasks[t].row), PaymentReorged, None, Background)]
  {
    StepReachable(s, Invalidate(t, true));
    s' := InvalidateStep(s, t, true);
  }

  // ----- shared beginnings -----

  /** The facilitator has announced the payment but its row is not stored yet; the chain delivers it. */
  lemma DeliveredEarly(announced: Transfer, mined: Transfer, id: string) returns (s: State)
    requires SamePayment(announced, mined)
    ensures Reachable(s)
    ensures s.tasks == map[0 := Posted(id, announced), 1 := Correlated(id, mined)]
    ensures s.rows == map[] && s.observed == {} && s.payloads == {} && s.wins.Keys == {0}
    ensures s.nonces == map[KeyOf(mined) := Nonce(Some(id), FacilitatorPath, false)]
  {
    InitReachable();
    StepReachable(Init(), Post(0, announced, id));
    var s1 := PostStep(Init(), 0, announced, id);
    s := DoDeliver(s1, 1, mined, id);
  }

  /** Row stored, payment promoted to its block, finality not looked at yet. */
  lemma PromotedPayment(announced: Transfer, mined: Transfer, id: string) returns (s: State)
    requires SamePayment(announced, mined)
    ensures Reachable(s)
    ensures 1 in s.tasks && s.tasks[1] == Promoted(id, mined) && s.tasks.Keys == {0, 1}
    ensures s.wins.Keys == {0} && s.observed == {} && s.payloads == {}
    ensures s.rows == map[id := PromotedRow(RowFor(announced, PreConfirmed, 0), mined)]
    ensures s.nonces == map[KeyOf(mined) := Nonce(Some(id), FacilitatorPath, false)]
  {
    var s0 := DeliveredEarly(announced, mined, id);
    var s1 := DoRecordPosted(s0, 0);
    s := DoPromote(s1, 1);
  }

  /** The poller has found the promoted row final at some head and written its depth, not yet its status. */
  lemma DeepenedPayment(announced: Transfer, mined: Transfer, id: string, head: int) returns (s: State)
    requires SamePayment(announced, mined) && head == mined.block + DefaultDepth(mined.chain)
    ensures Reachable(s)
    ensures s.tasks.Keys == {0, 1, 2} && s.wins.Keys == {0} && s.observed == {(mined.chain, head)}
    ensures s.tasks[2] == Deepened(id, PromotedRow(RowFor(announced, PreConfirmed, 0), mined), head)
    ensures s.rows.Keys == {id} && s.rows[id].block == mined.block && s.rows[id].chain == mined.chain
    ensures s.nonces == map[KeyOf(mined) := Nonce(Some(id), FacilitatorPath, false)]
  {
    var s0 := PromotedPayment(announced, mined, id);
    var s1 := DoPoll(s0, 2, id);
    var s2 := DoObserve(s1, 2, head);
    s := DoWriteDepth(s2, 2);
  }

  // ----- the gaps -----

  /** Promotion announces payment.finalized at the chain default, whatever more the endpoint asks for. */
  lemma FinalizedIgnoresOwnDepth(announced: Transfer, mined: Transfer, id: string, ep: Endpoint)
    requires SamePayment(announced, mined) && EffectiveDepth(ep, mined.chain) > DefaultDepth(mined.chain)
    ensures exists s: State, p: Payload :: (Reachable(s) && p in s.payloads && p.execution.safe
      && p.endpoint == ep && p.transfer == mined
      && !Buried(s.observed, mined.chain, mined.block, EffectiveDepth(ep, mined.chain)))
  {
    var head := mined.block + DefaultDepth(mined.chain);
    var s0 := PromotedPayment(announced, mined, id);
    var s1 := DoObserve(s0, 1, head);
    var s := DoEmit(s1, 1, ep);
    assert s.observed == {(mined.chain, head)};
    assert PayloadOf(s1.tasks[1], ep, Webhook) in s.payloads;
  }

  /** What promotion achieves: the row shows the delivered block if and only if it is stored by then. */
  lemma PromotionLandsIff(s: State, t: TaskId)
    requires Enabled(s, Promote(t))
    ensures var Correlated(id, transfer) := s.tasks[t]; var s' := Step(s, Promote(t));
      (id in s'.rows && s'.rows[id].status == Confirmed && s'.rows[id].block == transfer.block && t in s'.tasks)
      <==> id in s.rows
  {
    assert Step(s, Promote(t)) == PromoteStep(s, t);
  }

  /** A delivery that comes before the facilitator's row is dropped, and the paid row expires as failed. */
  lemma PaidYetFailed(announced: Transfer, mined: Transfer, id: string)
    requires SamePayment(announced, mined)
    ensures exists s: State :: (Reachable(s) && s.rows == map[id := RowFor(announced, Failed, 0)]
      && 1 !in s.tasks && AnswerFor(s.nonces, KeyOf(mined)) == Duplicate(Some(id), FacilitatorPath))
  {
    var s0 := DeliveredEarly(announced, mined, id);
    var s1 := DoPromoteInVain(s0, 1);
    var s2 := DoRecordPosted(s1, 0);
    var s3 := DoSweep(s2, 2, id);
    var s := DoExpire(s3, 2);
  }

  /** A promotion between the sweeper's snapshot and its write is lost: the row keeps the block it was
      promoted to, but as failed, and the poller never looks at it again. */
  lemma ExpiryOverwritesPromotion(announced: Transfer, mined: Transfer, id: string)
    requires SamePayment(announced, mined)
    ensures exists s: State :: (Reachable(s)
      && s.rows == map[id := PromotedRow(RowFor(announced, PreConfirmed, 0), mined).(status := Failed)]
      && 1 in s.tasks && s.tasks[1] == Promoted(id, mined) && !Open(s.rows[id]))
  {
    var s0 := DeliveredEarly(announced, mined, id);
    var s1 := DoRecordPosted(s0, 0);
    var s2 := DoSweep(s1, 2, id);
    var s3 := DoPromote(s2, 1);
    var s := DoExpire(s3, 2);
    assert s.rows == map[id := PromotedRow(RowFor(announced, PreConfirmed, 0), mined).(status := Failed)];
  }

  /** The poller's payment.finalized payload carries the depth of before its own update, so it can
      say "safe" and "not final" at once; that is exactly when the stored depth was below the endpoint's. */
  lemma FinalizedContradictsItselfIff(row: Row, ep: Endpoint)
    requires row.status == Confirmed
    ensures var p := PayloadOf(PollerReady(row), ep, Webhook);
      p.execution.safe && p.execution.finality.Some?
      && (!p.execution.finality.value.isFinalized <==> row.depth < EffectiveDepth(ep, row.chain))
  {}

  /** Such a payload is sent: right after a promotion the stored depth is still 0. */
  lemma FinalizedContradictsItself(announced: Transfer, mined: Transfer, id: string, ep: Endpoint)
    requires SamePayment(announced, mined)
    ensures exists s: State, p: Payload :: (Reachable(s) && p in s.payloads && p.execution.safe
      && p.execution.finality == Some(FinalityData(0, EffectiveDepth(ep, mined.chain), false)))
  {
    var s0 := DeepenedPayment(announced, mined, id, mined.block + DefaultDepth(mined.chain));
    var s1 := DoWriteStatus(s0, 2);
    var s := DoEmit(s1, 2, ep);
    assert PayloadOf(s1.tasks[2], ep, Webhook) in s.payloads;
  }

  /** Any promotion to a later block, between the poller's snapshot and its status write, can leave a row
      that the API calls finalized and safe without the confirmations of its chain. */
  lemma FinalizedRowNotBuried(announced: Transfer, mined: Transfer, remined: Transfer, id: string)
    requires SamePayment(announced, mined) && SamePayment(announced, remined)
    requires remined.block > mined.block
    ensures exists s: State :: (Reachable(s) && id in s.rows && s.rows[id].block == remined.block
      && LifecycleStatus.ExecutionOfStatus(s.rows[id].status).1
      && s.rows[id].chain == mined.chain && s.observed == {(mined.chain, mined.block + DefaultDepth(mined.chain))}
      && !Buried(s.observed, s.rows[id].chain, s.rows[id].block, DefaultDepth(mined.chain)))
  {
    var s0 := DeepenedPayment(announced, mined, id, mined.block + DefaultDepth(mined.chain));
    var s1 := DoDeliver(s0, 3, remined, id);
    var s2 := DoPromote(s1, 3);
    var s := DoWriteStatus(s2, 2);
    assert s.rows[id].status == Finalized && s.rows[id].block == remined.block;
  }

  /** A Goldsky delivery has been recorded as pending. */
  lemma RecordedDelivery(mined: Transfer, id: string) returns (s: State)
    ensures Reachable(s)
    ensures s.tasks == map[0 := Ready(mined, PaymentPending, None, Ingest)] && s.wins.Keys == {0}
    ensures s.rows == map[id := RowFor(mined, Pending, 0)] && s.nonces == map[KeyOf(mined) := GoldskyNonce()]
  {
    InitReachable();
    StepReachable(Init(), Deliver(0, mined));
    var s1 := DoCheck(DeliverStep(Init(), 0, mined), 0);
    s := DoRecord(s1, 0, id);
  }

  function GoldskyNonce(): Nonce {
    Nonce(None, GoldskyPath, false)
  }

  /** The poller finds the row's block replaced, marks it reorged, and invalidates by its event id. */
  lemma ReorgedDelivery(mined: Transfer, id: string, head: int, canonical: string) returns (s: State)
    requires mined.block > 0 && HashDiffers(RowFor(mined, Pending, 0), canonical)
    ensures Reachable(s) && s.rows == map[id := RowFor(mined, Reorged, 0)]
    ensures s.nonces == AfterInvalidation(map[KeyOf(mined) := GoldskyNonce()], id)
    ensures s.tasks.Keys == {0, 1} && s.tasks[0].Ready? && s.tasks[1].Ready?
  {
    var s0 := RecordedDelivery(mined, id);
    var s1 := DoPoll(s0, 1, id);
    var s2 := DoObserve(s1, 1, head);
    var s3 := DoMarkReorged(s2, 1, canonical);
    s := DoInvalidate(s3, 1);
  }

  /** The reorg of a payment the chain delivered first frees nothing: its row is reorged, its nonce stays
      held, and no continuation of the run ever records the payment again. */
  lemma ReorgedForGood(mined: Transfer, id: string, head: int, canonical: string)
    requires mined.block > 0 && HashDiffers(RowFor(mined, Pending, 0), canonical)
    ensures exists s: State :: (Reachable(s) && s.rows == map[id := RowFor(mined, Reorged, 0)]
      && LifecycleLost.Abandoned(s, KeyOf(mined)))
  {
    var s := ReorgedDelivery(mined, id, head, canonical);
    assert s.nonces[KeyOf(mined)] == GoldskyNonce();
    assert LifecycleLost.Abandoned(s, KeyOf(mined));
  }

  // ----- the endpoint's own depth -----

  ghost predicate SafeFor(s: State, p: Payload, ep: Endpoint, chain: Chain) {
    Reachable(s) && p in s.payloads && p.execution.safe && p.endpoint == ep && p.transfer.chain == chain
  }

  /** Every safe payload for this endpoint on this chain has the endpoint's own depth behind it. */
  ghost predicate OwnDepthRespected(ep: Endpoint, chain: Chain) {
    forall s: State, p: Payload :: SafeFor(s, p, ep, chain) ==>
      Buried(s.observed, chain, p.transfer.block, EffectiveDepth(ep, chain))
  }

  /** A safe payload respects the endpoint's depth in all runs exactly when it is within the chain default. */
  lemma OwnDepthRespectedIff(ep: Endpoint, chain: Chain)
    ensures OwnDepthRespected(ep, chain) <==> EffectiveDepth(ep, chain) <= DefaultDepth(chain)
  {
    if EffectiveDepth(ep, chain) <= DefaultDepth(chain) {
      forall s: State, p: Payload | SafeFor(s, p, ep, chain)
        ensures Buried(s.observed, chain, p.transfer.block, EffectiveDepth(ep, chain))
      {
        SafeToExecuteMinimum(s, p);
      }
    } else {
      var announced := Transfer(chain, "", 0, "", 0, "", "", "");
      FinalizedIgnoresOwnDepth(announced, announced.(block := 1), "", ep);
      var s: State, p: Payload :| Reachable(s) && p in s.payloads && p.execution.safe && p.endpoint == ep
        && p.transfer == announced.(block := 1) && !Buried(s.observed, chain, 1, EffectiveDepth(ep, chain));
      assert SafeFor(s, p, ep, chain);
    }
  }
}
