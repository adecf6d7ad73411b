/** The stages shared by all transfers once finality is known: match, approve, gate, send. */
module Dispatch {
  import opened Wrappers
  import opened Finality
  import opened Seqs
  import opened Tables
  import Text

  predicate Matches(transfer: Transfer, ep: Endpoint) {
    ep.active
    && Text.Lower(ep.recipient) == Text.Lower(transfer.recipient)
    && transfer.chain in ep.chains
  }

  /** The depth gate; a transfer whose finality is unknown is not gated at all. */
  predicate DepthReached(finality: Option<FinalityStatus>, chain: Chain, ep: Endpoint) {
    finality.Some? ==> finality.value.confirmations >= EffectiveDepth(ep, chain)
  }

  predicate HasProject(ep: Endpoint) {
    ep.convoyProject.Some? && ep.convoyProject.value != ""
  }

  function Matching(transfer: Transfer): Endpoint -> bool {
    ep => Matches(transfer, ep)
  }

  function Deep(finality: Option<FinalityStatus>, chain: Chain): Endpoint -> bool {
    ep => DepthReached(finality, chain, ep)
  }

  function InMode(mode: Mode): Endpoint -> bool {
    (ep: Endpoint) => ep.mode == mode
  }

  function Sendable(): Endpoint -> bool {
    ep => HasProject(ep)
  }

  function And(p: Endpoint -> bool, q: Endpoint -> bool): Endpoint -> bool {
    ep => p(ep) && q(ep)
  }

  function ToWebhook(transfer: Transfer, eventType: EventType, finality: Option<FinalityStatus>): Endpoint -> Payload {
    ep => WebhookPayload(ep, transfer, eventType, finality)
  }

  function ToNotice(transfer: Transfer, eventType: EventType, finality: Option<FinalityStatus>): Endpoint -> Payload {
    ep => NotifyPayload(ep, transfer, eventType, finality)
  }

  function IngestType(overrideType: Option<EventType>, finality: Option<FinalityStatus>): EventType {
    if overrideType.Some? then overrideType.value
    else if finality.Some? && finality.value.isFinalized then PaymentConfirmed
    else PaymentPending
  }

  method MatchEndpoints(transfer: Transfer, endpoints: seq<Endpoint>) returns (matched: seq<Endpoint>)
    ensures matched == Filter(Matching(transfer), endpoints)
    ensures forall ep :: Occurs(matched, ep) == Share(Some(endpoints), ForRecipient(ep, transfer), ep)
  {
    matched := [];
    for i := 0 to |endpoints|
      invariant matched == Filter(Matching(transfer), endpoints[..i])
    {
      var ep := endpoints[i];
      assert endpoints[..i + 1] == endpoints[..i] + [ep];
      FilterSnoc(Matching(transfer), endpoints[..i], ep);
      if !ep.active { continue; }
      if Text.Lower(ep.recipient) != Text.Lower(transfer.recipient) { continue; }
      if transfer.chain !in ep.chains { continue; }
      matched := matched + [ep];
    }
    assert endpoints[..|endpoints|] == endpoints;
    forall ep ensures Occurs(matched, ep) == Share(Some(endpoints), ForRecipient(ep, transfer), ep) {
      LinksSelect(transfer, endpoints, ep);
    }
  }

  /** The answers of the sends that went through, in order. */
  function MessageIds(send: Endpoint -> Option<string>, endpoints: seq<Endpoint>): seq<string> {
    if endpoints == [] then []
    else
      var front, ep := MessageIds(send, endpoints[..|endpoints| - 1]), endpoints[|endpoints| - 1];
      if HasProject(ep) && send(ep).Some? then front + [send(ep).value] else front
  }

  lemma MessageIdsSnoc(send: Endpoint -> Option<string>, endpoints: seq<Endpoint>, ep: Endpoint)
    ensures MessageIds(send, endpoints + [ep])
      == MessageIds(send, endpoints) + (if HasProject(ep) && send(ep).Some? then [send(ep).value] else [])
  {
    assert (endpoints + [ep])[..|endpoints|] == endpoints;
  }

  function EndpointsOf(payloads: seq<Payload>): seq<Endpoint> {
    Map((p: Payload) => p.endpoint, payloads)
  }

  /** Builds one payload per endpoint that has a Convoy project, in order. A send that fails, or that the
      open circuit refuses, answers None and does not stop the others. */
  method DispatchEvent(
    transfer: Transfer, endpoints: seq<Endpoint>, eventType: EventType, finality: Option<FinalityStatus>,
    send: Endpoint -> Option<string>)
    returns (payloads: seq<Payload>, messageIds: seq<string>)
    ensures payloads == Map(ToWebhook(transfer, eventType, finality), Filter(Sendable(), endpoints))
    ensures messageIds == MessageIds(send, endpoints)
  {
    payloads, messageIds := [], [];
    for i := 0 to |endpoints|
      invariant Sent(transfer, eventType, finality, send, endpoints[..i], payloads, messageIds)
    {
      var ep := endpoints[i];
      assert endpoints[..i + 1] == endpoints[..i] + [ep];
      SentSnoc(transfer, eventType, finality, send, endpoints[..i], payloads, messageIds, ep);
      if HasProject(ep) {
        payloads := payloads + [WebhookPayload(ep, transfer, eventType, finality)];
        var answer := send(ep);
        if answer.Some? {
          messageIds := messageIds + [answer.value];
        }
      }
    }
    assert endpoints[..|endpoints|] == endpoints;
  }

  /** What has been built and answered for the endpoints so far. */
  predicate Sent(
    transfer: Transfer, eventType: EventType, finality: Option<FinalityStatus>, send: Endpoint -> Option<string>,
    done: seq<Endpoint>, payloads: seq<Payload>, messageIds: seq<string>)
  {
    payloads == Map(ToWebhook(transfer, eventType, finality), Filter(Sendable(), done))
    && messageIds == MessageIds(send, done)
  }

  lemma SentSnoc(
    transfer: Transfer, eventType: EventType, finality: Option<FinalityStatus>, send: Endpoint -> Option<string>,
    done: seq<Endpoint>, payloads: seq<Payload>, messageIds: seq<string>, ep: Endpoint)
    requires Sent(transfer, eventType, finality, send, done, payloads, messageIds)
    ensures var built := if HasProject(ep) then [WebhookPayload(ep, transfer, eventType, finality)] else [];
      var answered := if HasProject(ep) && send(ep).Some? then [send(ep).value] else [];
      Sent(transfer, eventType, finality, send, done + [ep], payloads + built, messageIds + answered)
  {
    FilterSnoc(Sendable(), done, ep);
    var sent := Filter(Sendable(), done);
    assert (sent + [ep])[..|sent|] == sent;
    MessageIdsSnoc(send, done, ep);
  }

  /** Who is told: a failed send of an endpoint leaves every other endpoint's payload and answer in place. */
  lemma {:induction false} MessageIdsMember(send: Endpoint -> Option<string>, endpoints: seq<Endpoint>, id: string)
    ensures id in MessageIds(send, endpoints)
      <==> exists i :: 0 <= i < |endpoints| && HasProject(endpoints[i]) && send(endpoints[i]) == Some(id)
  {
    if endpoints != [] {
      var front, last := endpoints[..|endpoints| - 1], endpoints[|endpoints| - 1];
      MessageIdsMember(send, front, id);
      if i :| 0 <= i < |endpoints| && HasProject(endpoints[i]) && send(endpoints[i]) == Some(id) && i < |front| {
        assert front[i] == endpoints[i];
      }
      if j :| 0 <= j < |front| && HasProject(front[j]) && send(front[j]) == Some(id) {
        assert endpoints[j] == front[j];
      }
    }
  }

  /** The endpoints an ingest call reaches by webhook, as one test. */
  function Reached(
    transfer: Transfer, allows: Endpoint -> bool, finality: Option<FinalityStatus>): Endpoint -> bool
  {
    And(And(And(And(Matching(transfer), allows), Deep(finality, transfer.chain)), InMode(Execute)), Sendable())
  }

  /** What a webhook consumer on the ingest path is told, and who is reached. */
  lemma IngestExact(
    transfer: Transfer, endpoints: seq<Endpoint>, allows: Endpoint -> bool,
    finality: Option<FinalityStatus>, overrideType: Option<EventType>, p: Payload)
    requires finality.Some? ==> finality.value.required == DefaultDepth(transfer.chain)
    requires p in Webhooks(transfer, endpoints, allows, finality, overrideType)
    ensures overrideType.None? ==>
      (p.execution.safe <==>
       finality.Some? && finality.value.confirmations >= EffectiveDepth(p.endpoint, transfer.chain))
    ensures overrideType == Some(PaymentPreConfirmed) ==> !p.execution.safe
    ensures p.endpoint in endpoints && p.endpoint.mode == Execute && allows(p.endpoint)
    ensures About(p, p.endpoint, transfer, IngestType(overrideType, finality)) && Consistent(p)
    ensures Carries(p, finality, if p.endpoint.finalityDepth.Some? then Some(p.endpoint.finalityDepth.value) else None)
    ensures finality.Some? ==> finality.value.confirmations >= EffectiveDepth(p.endpoint, transfer.chain)
  {
    var reached := Filter(Reached(transfer, allows, finality), endpoints);
    var i :| 0 <= i < |reached|
      && p == WebhookPayload(reached[i], transfer, IngestType(overrideType, finality), finality);
    FilterMember(Reached(transfer, allows, finality), endpoints, reached[i]);
    WebhookSafeIff(reached[i], transfer, IngestType(overrideType, finality), finality);
    WebhookTells(reached[i], transfer, IngestType(overrideType, finality), finality);
  }

  function Webhooks(
    transfer: Transfer, endpoints: seq<Endpoint>, allows: Endpoint -> bool,
    finality: Option<FinalityStatus>, overrideType: Option<EventType>): seq<Payload>
  {
    Map(ToWebhook(transfer, IngestType(overrideType, finality), finality),
        Filter(Reached(transfer, allows, finality), endpoints))
  }

  function Notices(
    transfer: Transfer, endpoints: seq<Endpoint>, allows: Endpoint -> bool, subscribed: Endpoint -> bool,
    finality: Option<FinalityStatus>, overrideType: Option<EventType>): seq<Payload>
  {
    Map(ToNotice(transfer, IngestType(overrideType, finality), finality),
        Filter(subscribed, Filter(InMode(Notify), Ready(transfer, endpoints, allows, finality))))
  }

  /** The endpoints left after matching, policy and depth. */
  function Ready(
    transfer: Transfer, endpoints: seq<Endpoint>, allows: Endpoint -> bool,
    finality: Option<FinalityStatus>): seq<Endpoint>
  {
    Filter(Deep(finality, transfer.chain), Filter(allows, Filter(Matching(transfer), endpoints)))
  }

  /** Filtering pass by pass, as the code does, reaches the same endpoints in the same order. */
  lemma PassesAgree(
    transfer: Transfer, endpoints: seq<Endpoint>, allows: Endpoint -> bool, finality: Option<FinalityStatus>)
    ensures Filter(Sendable(), Filter(InMode(Execute), Ready(transfer, endpoints, allows, finality)))
         == Filter(Reached(transfer, allows, finality), endpoints)
  {
    var byPolicy := And(Matching(transfer), allows);
    var byDepth := And(byPolicy, Deep(finality, transfer.chain));
    var byMode := And(byDepth, InMode(Execute));
    FilterTwice(Matching(transfer), allows, byPolicy, endpoints);
    FilterTwice(byPolicy, Deep(finality, transfer.chain), byDepth, endpoints);
    FilterTwice(byDepth, InMode(Execute), byMode, endpoints);
    FilterTwice(byMode, Sendable(), Reached(transfer, allows, finality), endpoints);
  }

  method ApplyPolicy(allows: Endpoint -> bool, matched: seq<Endpoint>) returns (approved: seq<Endpoint>)
    ensures approved == Filter(allows, matched)
  {
    approved := [];
    for i := 0 to |matched|
      invariant approved == Filter(allows, matched[..i])
    {
      assert matched[..i + 1] == matched[..i] + [matched[i]];
      FilterSnoc(allows, matched[..i], matched[i]);
      if allows(matched[i]) {
        approved := approved + [matched[i]];
      }
    }
    assert matched[..|matched|] == matched;
  }

  method GateByDepth(finality: FinalityStatus, chain: Chain, approved: seq<Endpoint>)
    returns (ready: seq<Endpoint>)
    ensures ready == Filter(Deep(Some(finality), chain), approved)
    ensures forall ep :: Occurs(ready, ep) == Share(Some(approved), DeepEnough(ep, chain, Some(finality)), ep)
  {
    ready := [];
    for i := 0 to |approved|
      invariant ready == Filter(Deep(Some(finality), chain), approved[..i])
    {
      var ep := approved[i];
      assert approved[..i + 1] == approved[..i] + [ep];
      FilterSnoc(Deep(Some(finality), chain), approved[..i], ep);
      var required := match ep.finalityDepth case Some(d) => d case None => DefaultDepth(chain);
      if finality.confirmations < required { continue; }
      ready := ready + [ep];
    }
    assert approved[..|approved|] == approved;
    forall ep ensures Occurs(ready, ep) == Share(Some(approved), DeepEnough(ep, chain, Some(finality)), ep) {
      FilterOccurs(Deep(Some(finality), chain), approved, ep);
    }
  }

  lemma MappedEndpoints(build: Endpoint -> Payload, endpoints: seq<Endpoint>)
    requires forall ep :: build(ep).endpoint == ep
    ensures EndpointsOf(Map(build, endpoints)) == endpoints
  {}

  // ----- whom the stage reaches, said of the endpoints' own fields -----

  /** An endpoint of the payment's recipient, whatever the case of either text, on its chain and switched on. */
  predicate ForRecipient(ep: Endpoint, transfer: Transfer) {
    transfer.chain in ep.chains && ep.active && Text.Lower(transfer.recipient) == Text.Lower(ep.recipient)
  }

  /** As many confirmations as the endpoint asks for, or the chain if it does not; unknown finality passes. */
  predicate DeepEnough(ep: Endpoint, chain: Chain, finality: Option<FinalityStatus>) {
    finality.None?
    || (ep.finalityDepth.Some? && finality.value.confirmations >= ep.finalityDepth.value)
    || (ep.finalityDepth.None? && finality.value.confirmations >= DefaultDepth(chain))
  }

  predicate GetsWebhook(
    ep: Endpoint, transfer: Transfer, allows: Endpoint -> bool, finality: Option<FinalityStatus>)
  {
    ForRecipient(ep, transfer) && allows(ep) && DeepEnough(ep, transfer.chain, finality)
    && ep.mode == Execute && ep.convoyProject.Some? && ep.convoyProject.value != ""
  }

  predicate GetsNotice(
    ep: Endpoint, transfer: Transfer, allows: Endpoint -> bool, subscribed: Endpoint -> bool,
    finality: Option<FinalityStatus>)
  {
    ForRecipient(ep, transfer) && allows(ep) && DeepEnough(ep, transfer.chain, finality)
    && ep.mode == Notify && subscribed(ep)
  }

  /** As often as it was fetched, if it is wanted. */
  function Share(fetched: Option<seq<Endpoint>>, wanted: bool, ep: Endpoint): nat {
    if fetched.Some? && wanted then Occurs(fetched.value, ep) else 0
  }

  lemma LinksSelect(transfer: Transfer, endpoints: seq<Endpoint>, ep: Endpoint)
    ensures Occurs(Filter(Matching(transfer), endpoints), ep) == Share(Some(endpoints), ForRecipient(ep, transfer), ep)
  {
    FilterOccurs(Matching(transfer), endpoints, ep);
  }

  lemma WebhooksSelect(
    transfer: Transfer, endpoints: seq<Endpoint>, allows: Endpoint -> bool, finality: Option<FinalityStatus>,
    overrideType: Option<EventType>, ep: Endpoint)
    ensures Occurs(EndpointsOf(Webhooks(transfer, endpoints, allows, finality, overrideType)), ep)
      == Share(Some(endpoints), GetsWebhook(ep, transfer, allows, finality), ep)
  {
    var reached := Reached(transfer, allows, finality);
    MappedEndpoints(ToWebhook(transfer, IngestType(overrideType, finality), finality), Filter(reached, endpoints));
    FilterOccurs(reached, endpoints, ep);
  }

  lemma ReadySelects(
    transfer: Transfer, endpoints: seq<Endpoint>, allows: Endpoint -> bool, finality: Option<FinalityStatus>,
    ep: Endpoint)
    ensures var wanted := ForRecipient(ep, transfer) && allows(ep) && DeepEnough(ep, transfer.chain, finality);
      Occurs(Ready(transfer, endpoints, allows, finality), ep) == Share(Some(endpoints), wanted, ep)
  {
    var matched := Filter(Matching(transfer), endpoints);
    LinksSelect(transfer, endpoints, ep);
    FilterOccurs(allows, matched, ep);
    FilterOccurs(Deep(finality, transfer.chain), Filter(allows, matched), ep);
    assert Deep(finality, transfer.chain)(ep) <==> DeepEnough(ep, transfer.chain, finality);
  }

  lemma NoticesSelect(
    transfer: Transfer, endpoints: seq<Endpoint>, allows: Endpoint -> bool, subscribed: Endpoint -> bool,
    finality: Option<FinalityStatus>, overrideType: Option<EventType>, ep: Endpoint)
    ensures Occurs(EndpointsOf(Notices(transfer, endpoints, allows, subscribed, finality, overrideType)), ep)
      == Share(Some(endpoints), GetsNotice(ep, transfer, allows, subscribed, finality), ep)
  {
    var ready := Ready(transfer, endpoints, allows, finality);
    var chosen := Filter(subscribed, Filter(InMode(Notify), ready));
    MappedEndpoints(ToNotice(transfer, IngestType(overrideType, finality), finality), chosen);
    ReadySelects(transfer, endpoints, allows, finality, ep);
    FilterOccurs(InMode(Notify), ready, ep);
    FilterOccurs(subscribed, Filter(InMode(Notify), ready), ep);
  }

  datatype IngestResult = FetchFailed | NoEndpoints | NoMatch | Processed

  function ResultOf(transfer: Transfer, fetched: Option<seq<Endpoint>>): IngestResult {
    if fetched.None? then FetchFailed
    else if fetched.value == [] then NoEndpoints
    else if Filter(Matching(transfer), fetched.value) == [] then NoMatch
    else Processed
  }

  /**
   The whole ingest stage, pass by pass. The event is recorded on every branch but a failed endpoint query, and each
   matched endpoint is linked to the row, also the ones the depth gate drops. An insert, a link or a
   notification that raises is logged, and changes nothing of the rest.
   */
  method RunStages(
    transfer: Transfer, fetched: Option<seq<Endpoint>>, allows: Endpoint -> bool, subscribed: Endpoint -> bool,
    finality: Option<FinalityStatus>, overrideType: Option<EventType>, send: Endpoint -> Option<string>,
    stores: bool, links: bool, notifies: bool)
    returns (result: IngestResult, recorded: Option<Row>, linked: seq<Endpoint>,
             webhooks: seq<Payload>, messageIds: seq<string>, notices: seq<Payload>)
    ensures result == ResultOf(transfer, fetched)
    ensures recorded == if fetched.None? || !stores then None
                        else Some(RecordedRow(transfer, IngestType(overrideType, finality), finality))
    ensures result != Processed ==> linked == [] && webhooks == [] && messageIds == [] && notices == []
    ensures result == Processed ==> var endpoints := fetched.value;
      linked == (if links then Filter(Matching(transfer), endpoints) else [])
      && webhooks == Webhooks(transfer, endpoints, allows, finality, overrideType)
      && messageIds == MessageIds(send, Filter(InMode(Execute), Ready(transfer, endpoints, allows, finality)))
      && notices == if notifies then Notices(transfer, endpoints, allows, subscribed, finality, overrideType) else []
  {
    linked, webhooks, messageIds, notices := [], [], [], [];
    if fetched.None? {
      return FetchFailed, None, [], [], [], [];
    }
    var eventType := IngestType(overrideType, finality);
    recorded := if stores then Some(RecordedRow(transfer, eventType, finality)) else None;
    if fetched.value == [] {
      return NoEndpoints, recorded, [], [], [], [];
    }
    var matched := MatchEndpoints(transfer, fetched.value);
    if matched == [] {
      return NoMatch, recorded, [], [], [], [];
    }
    result := Processed;
    linked := if links then matched else [];
    var ready := ApplyPolicy(allows, matched);
    if finality.Some? {
      ready := GateByDepth(finality.value, transfer.chain, ready);
    } else {
      FilterAll(Deep(finality, transfer.chain), ready);
    }
    assert ready == Ready(transfer, fetched.value, allows, finality);
    webhooks, messageIds := DispatchEvent(transfer, Filter(InMode(Execute), ready), eventType, finality, send);
    PassesAgree(transfer, fetched.value, allows, finality);
    if notifies {
      notices := Map(ToNotice(transfer, eventType, finality), Filter(subscribed, Filter(InMode(Notify), ready)));
    }
  }

  /** The type an ingest payload has. */
  predicate RightType(p: Payload, overrideType: Option<EventType>, finality: Option<FinalityStatus>) {
    if overrideType.Some? then p.eventType == overrideType.value
    else
      (p.eventType == PaymentConfirmed <==> finality.Some? && finality.value.isFinalized)
      && (p.eventType == PaymentPending <==> finality.None? || !finality.value.isFinalized)
  }

  /** The stage, by whom it reaches: each endpoint that qualifies exactly as often as it was fetched, and no other. */
  method DispatchForTransfer(
    transfer: Transfer, fetched: Option<seq<Endpoint>>, allows: Endpoint -> bool, subscribed: Endpoint -> bool,
    finality: Option<FinalityStatus>, overrideType: Option<EventType>, send: Endpoint -> Option<string>,
    stores: bool, links: bool, notifies: bool)
    returns (result: IngestResult, recorded: Option<Row>, linked: seq<Endpoint>,
             webhooks: seq<Payload>, messageIds: seq<string>, notices: seq<Payload>)
    ensures result == FetchFailed <==> fetched.None?
    ensures result == NoEndpoints <==> fetched == Some([])
    ensures result == Processed <==> fetched.Some? && exists ep :: ep in fetched.value && ForRecipient(ep, transfer)
    ensures recorded.Some? <==> fetched.Some? && stores
    ensures recorded.Some? ==> RowStores(recorded.value, transfer, overrideType, finality)
    ensures forall ep :: Occurs(linked, ep) == Share(fetched, links && ForRecipient(ep, transfer), ep)
    ensures forall ep :: Occurs(EndpointsOf(webhooks), ep)
                         == Share(fetched, GetsWebhook(ep, transfer, allows, finality), ep)
    ensures forall ep :: Occurs(EndpointsOf(notices), ep)
                         == Share(fetched, notifies && GetsNotice(ep, transfer, allows, subscribed, finality), ep)
    ensures forall p :: p in webhooks || p in notices ==> p.transfer == transfer && RightType(p, overrideType, finality)
    ensures forall p :: p in webhooks ==> Consistent(p) && Carries(p, finality, OwnDepth(p.endpoint))
    ensures forall p :: p in notices ==> Consistent(p) && Carries(p, finality, None)
    ensures forall id :: id in messageIds ==> exists ep :: send(ep) == Some(id) && ep in EndpointsOf(webhooks)
  {
    result, recorded, linked, webhooks, messageIds, notices :=
      RunStages(transfer, fetched, allows, subscribed, finality, overrideType, send, stores, links, notifies);
    if fetched.Some? {
      AnyMatch(transfer, fetched.value);
      if result == Processed {
        var eventType := IngestType(overrideType, finality);
        ProcessedReach(transfer, fetched.value, allows, subscribed, finality, overrideType, links, notifies,
                       linked, webhooks, notices);
        PayloadTypes(ToWebhook(transfer, eventType, finality), transfer,
                     Filter(Reached(transfer, allows, finality), fetched.value), overrideType, finality);
        PayloadTypes(ToNotice(transfer, eventType, finality), transfer,
                     Filter(subscribed, Filter(InMode(Notify), Ready(transfer, fetched.value, allows, finality))),
                     overrideType, finality);
        WebhookContents(transfer, Filter(Reached(transfer, allows, finality), fetched.value), eventType, finality);
        NoticeContents(transfer,
                       Filter(subscribed, Filter(InMode(Notify), Ready(transfer, fetched.value, allows, finality))),
                       eventType, finality);
        AnswersComeFromWebhooks(transfer, fetched.value, allows, finality, overrideType, send);
      } else {
        NobodyReached(transfer, fetched.value, allows, subscribed, finality);
      }
    }
  }

  /** The lists of a processed transfer, by whom they hold. */
  lemma ProcessedReach(
    transfer: Transfer, endpoints: seq<Endpoint>, allows: Endpoint -> bool, subscribed: Endpoint -> bool,
    finality: Option<FinalityStatus>, overrideType: Option<EventType>, links: bool, notifies: bool,
    linked: seq<Endpoint>, webhooks: seq<Payload>, notices: seq<Payload>)
    requires linked == if links then Filter(Matching(transfer), endpoints) else []
    requires webhooks == Webhooks(transfer, endpoints, allows, finality, overrideType)
    requires notices
      == if notifies then Notices(transfer, endpoints, allows, subscribed, finality, overrideType) else []
    ensures forall ep :: Occurs(linked, ep) == Share(Some(endpoints), links && ForRecipient(ep, transfer), ep)
    ensures forall ep :: Occurs(EndpointsOf(webhooks), ep)
                         == Share(Some(endpoints), GetsWebhook(ep, transfer, allows, finality), ep)
    ensures forall ep ::
      Occurs(EndpointsOf(notices), ep)
      == Share(Some(endpoints), notifies && GetsNotice(ep, transfer, allows, subscribed, finality), ep)
  {
    forall ep
      ensures Occurs(linked, ep) == Share(Some(endpoints), links && ForRecipient(ep, transfer), ep)
      ensures Occurs(EndpointsOf(webhooks), ep)
        == Share(Some(endpoints), GetsWebhook(ep, transfer, allows, finality), ep)
      ensures Occurs(EndpointsOf(notices), ep)
        == Share(Some(endpoints), notifies && GetsNotice(ep, transfer, allows, subscribed, finality), ep)
    {
      LinksSelect(transfer, endpoints, ep);
      WebhooksSelect(transfer, endpoints, allows, finality, overrideType, ep);
      NoticesSelect(transfer, endpoints, allows, subscribed, finality, overrideType, ep);
    }
  }

  function OwnDepth(ep: Endpoint): Option<nat> {
    if ep.finalityDepth.Some? then Some(ep.finalityDepth.value) else None
  }

  lemma WebhookContents(
    transfer: Transfer, endpoints: seq<Endpoint>, eventType: EventType, finality: Option<FinalityStatus>)
    ensures forall p :: p in Map(ToWebhook(transfer, eventType, finality), endpoints) ==>
      Consistent(p) && Carries(p, finality, OwnDepth(p.endpoint))
  {
    forall i | 0 <= i < |endpoints|
      ensures var p := WebhookPayload(endpoints[i], transfer, eventType, finality);
        p.endpoint == endpoints[i] && Consistent(p) && Carries(p, finality, OwnDepth(endpoints[i]))
    {
      WebhookTells(endpoints[i], transfer, eventType, finality);
    }
  }

  lemma NoticeContents(
    transfer: Transfer, endpoints: seq<Endpoint>, eventType: EventType, finality: Option<FinalityStatus>)
    ensures forall p :: p in Map(ToNotice(transfer, eventType, finality), endpoints) ==>
      Consistent(p) && Carries(p, finality, None)
  {
    forall i | 0 <= i < |endpoints|
      ensures var p := NotifyPayload(endpoints[i], transfer, eventType, finality);
        Consistent(p) && Carries(p, finality, None)
    {
      NotifyTells(endpoints[i], transfer, eventType, finality);
    }
  }

  lemma PayloadTypes(
    build: Endpoint -> Payload, transfer: Transfer, endpoints: seq<Endpoint>, overrideType: Option<EventType>,
    finality: Option<FinalityStatus>)
    requires forall ep :: build(ep).transfer == transfer && build(ep).eventType == IngestType(overrideType, finality)
    ensures forall p :: p in Map(build, endpoints) ==> p.transfer == transfer && RightType(p, overrideType, finality)
  {
    var payloads := Map(build, endpoints);
    forall p | p in payloads ensures p.transfer == transfer && RightType(p, overrideType, finality) {
      var i :| 0 <= i < |payloads| && payloads[i] == p;
      assert p == build(endpoints[i]);
    }
  }

  /** What the stored row says of the transfer. */
  predicate RowStores(row: Row, transfer: Transfer, overrideType: Option<EventType>, finality: Option<FinalityStatus>) {
    row.chain == transfer.chain && row.tx == transfer.tx && row.block == transfer.block
    && row.blockHash == transfer.blockHash && row.logIndex == transfer.logIndex
    && row.authorizer == transfer.authorizer && row.nonce == transfer.nonce && row.recipient == transfer.recipient
    && (row.status == PreConfirmed <==> overrideType == Some(PaymentPreConfirmed))
    && (row.status == Confirmed <==> row.status != PreConfirmed && finality.Some? && finality.value.isFinalized)
    && row.status in {PreConfirmed, Confirmed, Pending}
    && row.depth == (if finality.Some? then finality.value.confirmations else 0)
  }

  lemma AnyMatch(transfer: Transfer, endpoints: seq<Endpoint>)
    ensures Filter(Matching(transfer), endpoints) != []
      <==> exists ep :: ep in endpoints && ForRecipient(ep, transfer)
  {
    var matched := Filter(Matching(transfer), endpoints);
    if matched != [] {
      FilterMember(Matching(transfer), endpoints, matched[0]);
      assert matched[0] in endpoints && ForRecipient(matched[0], transfer);
    }
    forall ep | ep in endpoints && ForRecipient(ep, transfer) ensures matched != [] {
      FilterMember(Matching(transfer), endpoints, ep);
    }
  }

  /** Without a match there is nobody to tell. */
  lemma NobodyReached(
    transfer: Transfer, endpoints: seq<Endpoint>, allows: Endpoint -> bool, subscribed: Endpoint -> bool,
    finality: Option<FinalityStatus>)
    requires Filter(Matching(transfer), endpoints) == []
    ensures forall ep :: Share(Some(endpoints), ForRecipient(ep, transfer), ep) == 0
    ensures forall ep :: Share(Some(endpoints), GetsWebhook(ep, transfer, allows, finality), ep) == 0
    ensures forall ep :: Share(Some(endpoints), GetsNotice(ep, transfer, allows, subscribed, finality), ep) == 0
  {
    forall ep ensures Share(Some(endpoints), ForRecipient(ep, transfer), ep) == 0 {
      LinksSelect(transfer, endpoints, ep);
    }
    assert forall ep :: ForRecipient(ep, transfer) ==> Share(Some(endpoints), ForRecipient(ep, transfer), ep) == 0;
  }

  lemma AnswersComeFromWebhooks(
    transfer: Transfer, endpoints: seq<Endpoint>, allows: Endpoint -> bool, finality: Option<FinalityStatus>,
    overrideType: Option<EventType>, send: Endpoint -> Option<string>)
    ensures var execute := Filter(InMode(Execute), Ready(transfer, endpoints, allows, finality));
      forall id :: id in MessageIds(send, execute) ==>
        exists ep :: (send(ep) == Some(id)
          && ep in EndpointsOf(Webhooks(transfer, endpoints, allows, finality, overrideType)))
  {
    var execute := Filter(InMode(Execute), Ready(transfer, endpoints, allows, finality));
    PassesAgree(transfer, endpoints, allows, finality);
    MappedEndpoints(ToWebhook(transfer, IngestType(overrideType, finality), finality),
                    Filter(Reached(transfer, allows, finality), endpoints));
    forall id | id in MessageIds(send, execute)
      ensures exists ep :: (send(ep) == Some(id)
        && ep in EndpointsOf(Webhooks(transfer, endpoints, allows, finality, overrideType)))
    {
      MessageIdsMember(send, execute, id);
      var i :| 0 <= i < |execute| && HasProject(execute[i]) && send(execute[i]) == Some(id);
      FilterMember(Sendable(), execute, execute[i]);
    }
  }

  /** A stored row says confirmed exactly when a consumer at the chain default would be told to act. */
  lemma RowAgreesWithPayload(transfer: Transfer, ep: Endpoint, finality: Option<FinalityStatus>)
    requires finality.Some? ==> exists head ::
      finality.value == CheckFinality(transfer.chain, transfer.block, head, None)
    requires ep.finalityDepth.None?
    ensures var eventType := IngestType(None, finality);
      RecordedRow(transfer, eventType, finality).status == Confirmed
      <==> WebhookPayload(ep, transfer, eventType, finality).execution.safe
  {
    WebhookSafeIff(ep, transfer, IngestType(None, finality), finality);
  }
}
