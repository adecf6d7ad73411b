/** Finality arithmetic and the payload builders that decide `safe_to_execute`. */
module Finality {
  import opened Wrappers

  datatype Chain = Ethereum | Base | Arbitrum

  function DefaultDepth(chain: Chain): (depth: nat)
    ensures depth >= 1
  {
    match chain
    case Ethereum => 12
    case Base => 3
    case Arbitrum => 1
  }

  datatype EventType =
    | PaymentConfirmed
    | PaymentPending
    | PaymentPreConfirmed
    | PaymentFailed
    | PaymentReorged
    | PaymentFinalized
    | TriggerMatched
    | TriggerConfirmed
    | TriggerFinalized

  datatype ExecutionState = ProvisionalState | ConfirmedState | FinalizedState | ReorgedState

  datatype TrustSource = Facilitator | Onchain

  datatype FinalityStatus = FinalityStatus(confirmations: nat, required: nat, isFinalized: bool)

  datatype FinalityData = FinalityData(confirmations: nat, required: nat, isFinalized: bool)

  datatype ExecutionBlock = ExecutionBlock(
    state: ExecutionState, safe: bool, trust: TrustSource, finality: Option<FinalityData>)

  /** An endpoint's own finality depth is validated to lie in 1..64. */
  type Depth = d: nat | 1 <= d <= 64 witness 1

  datatype Mode = Notify | Execute

  datatype Endpoint = Endpoint(
    id: string, mode: Mode, active: bool, recipient: string, chains: seq<Chain>,
    finalityDepth: Option<Depth>, convoyProject: Option<string>)

  datatype Transfer = Transfer(
    chain: Chain, tx: string, block: nat, blockHash: string, logIndex: nat,
    authorizer: string, nonce: string, recipient: string)

  /** The depth an endpoint asks for: its own, or the chain default. */
  function EffectiveDepth(ep: Endpoint, chain: Chain): nat {
    match ep.finalityDepth
    case Some(d) => d
    case None => DefaultDepth(chain)
  }

  /** max(0, head - block): how many blocks the RPC head is past the event's block. */
  function Confirmations(head: int, block: nat): nat {
    if head <= block then 0 else head - block
  }

  function CheckFinality(chain: Chain, block: nat, head: int, depth: Option<nat>): FinalityStatus {
    var required := if depth.Some? then depth.value else DefaultDepth(chain);
    var confirmations := Confirmations(head, block);
    FinalityStatus(confirmations, required, confirmations >= required)
  }

  function BuildFinalityData(finality: Option<FinalityStatus>, depth: Option<Depth>): Option<FinalityData> {
    match finality
    case None => None
    case Some(f) =>
      var required := if depth.Some? then depth.value else f.required;
      Some(FinalityData(f.confirmations, required, f.confirmations >= required))
  }

  function DeriveExecution(eventType: EventType, finality: Option<FinalityData>): ExecutionBlock {
    if eventType == PaymentPreConfirmed then
      ExecutionBlock(ProvisionalState, false, Facilitator, finality)
    else if eventType == PaymentReorged || eventType == PaymentFailed then
      ExecutionBlock(ReorgedState, false, Onchain, finality)
    else if eventType == PaymentFinalized || eventType == TriggerFinalized then
      ExecutionBlock(FinalizedState, true, Onchain, finality)
    else if finality.Some? && finality.value.isFinalized then
      ExecutionBlock(FinalizedState, true, Onchain, finality)
    else
      ExecutionBlock(ConfirmedState, false, Onchain, finality)
  }

  /** What a consumer receives; `key` fields other than the transfer are left out. */
  datatype Payload = Payload(
    endpoint: Endpoint, transfer: Transfer, eventType: EventType, execution: ExecutionBlock)

  /** Webhook payload: the endpoint's own depth overrides the required confirmations. */
  function WebhookPayload(
    ep: Endpoint, transfer: Transfer, eventType: EventType, finality: Option<FinalityStatus>): Payload
  {
    Payload(ep, transfer, eventType, DeriveExecution(eventType, BuildFinalityData(finality, ep.finalityDepth)))
  }

  /** Realtime payload: built once for all endpoints, so no endpoint depth is applied. */
  function NotifyPayload(
    ep: Endpoint, transfer: Transfer, eventType: EventType, finality: Option<FinalityStatus>): Payload
  {
    Payload(ep, transfer, eventType, DeriveExecution(eventType, BuildFinalityData(finality, None)))
  }

  /** Dynamic trigger payload: built by hand from the chain-default finality. */
  function TriggerPayload(ep: Endpoint, transfer: Transfer, finality: Option<FinalityStatus>): Payload {
    var final := finality.Some? && finality.value.isFinalized;
    Payload(ep, transfer, TriggerMatched,
      ExecutionBlock(
        if final then FinalizedState else ConfirmedState, final, Onchain,
        BuildFinalityData(finality, None)))
  }

  /** When exactly a webhook payload tells its consumer to act. */
  lemma WebhookSafeIff(ep: Endpoint, transfer: Transfer, eventType: EventType, finality: Option<FinalityStatus>)
    requires finality.Some? ==> finality.value.required == DefaultDepth(transfer.chain)
    ensures WebhookPayload(ep, transfer, eventType, finality).execution.safe
       <==> (eventType == PaymentFinalized || eventType == TriggerFinalized
             || (eventType !in {PaymentPreConfirmed, PaymentReorged, PaymentFailed}
                 && finality.Some? && finality.value.confirmations >= EffectiveDepth(ep, transfer.chain)))
  {}

  // ----- what every payload tells -----

  /** State, flag and trust of a payload agree with its type and with each other. */
  predicate Consistent(p: Payload) {
    (p.execution.state == ReorgedState <==> p.eventType == PaymentReorged || p.eventType == PaymentFailed)
    && (p.execution.state == ProvisionalState <==> p.eventType == PaymentPreConfirmed)
    && (p.execution.trust == Facilitator <==> p.eventType == PaymentPreConfirmed)
    && (p.execution.state == FinalizedState <==> p.execution.safe)
  }

  /** The finality block is absent with the finality, and else carries its confirmations and the depth required. */
  predicate Carries(p: Payload, finality: Option<FinalityStatus>, depth: Option<nat>) {
    (p.execution.finality.None? <==> finality.None?)
    && (finality.Some? ==> var told := p.execution.finality.value;
          told.confirmations == finality.value.confirmations
          && told.required == (if depth.Some? then depth.value else finality.value.required)
          && (told.isFinalized <==> told.confirmations >= told.required))
  }

  predicate About(p: Payload, ep: Endpoint, transfer: Transfer, eventType: EventType) {
    p.endpoint == ep && p.transfer == transfer && p.eventType == eventType
  }

  lemma WebhookTells(ep: Endpoint, transfer: Transfer, eventType: EventType, finality: Option<FinalityStatus>)
    ensures var p := WebhookPayload(ep, transfer, eventType, finality);
      About(p, ep, transfer, eventType) && Consistent(p)
      && Carries(p, finality, if ep.finalityDepth.Some? then Some(ep.finalityDepth.value) else None)
  {}

  lemma NotifyTells(ep: Endpoint, transfer: Transfer, eventType: EventType, finality: Option<FinalityStatus>)
    ensures var p := NotifyPayload(ep, transfer, eventType, finality);
      About(p, ep, transfer, eventType) && Consistent(p) && Carries(p, finality, None)
      && (p.execution.safe <==>
          eventType == PaymentFinalized || eventType == TriggerFinalized
          || (eventType !in {PaymentPreConfirmed, PaymentReorged, PaymentFailed}
              && finality.Some? && finality.value.confirmations >= finality.value.required))
  {}

  lemma TriggerTells(ep: Endpoint, transfer: Transfer, finality: Option<FinalityStatus>)
    ensures var p := TriggerPayload(ep, transfer, finality);
      About(p, ep, transfer, TriggerMatched) && Consistent(p) && Carries(p, finality, None)
      && (p.execution.safe <==> finality.Some? && finality.value.isFinalized)
  {}

  /** The check counts blocks past the event, never below none, against the depth asked for or the chain's. */
  lemma CheckCounts(chain: Chain, block: nat, head: int, depth: Option<nat>)
    ensures var f := CheckFinality(chain, block, head, depth);
      (head >= block ==> block + f.confirmations == head) && (head < block ==> f.confirmations == 0)
      && f.required == (if depth.Some? then depth.value else DefaultDepth(chain))
      && (f.isFinalized <==> head - block >= f.required || f.required == 0)
    ensures DefaultDepth(Ethereum) == 12 && DefaultDepth(Base) == 3 && DefaultDepth(Arbitrum) == 1
  {}
}
