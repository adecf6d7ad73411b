/** One poll cycle of a chain: the rows it writes, the nonces it frees and the webhooks it builds. */
module FinalityPoller {
  import opened Wrappers
  import opened Finality
  import opened Tables
  import opened Arith
  import opened Seqs
  import opened Dispatch
  import Text

  const POLL_LIMIT := 100

  type Rows = map<string, Row>

  function OpenIds(rows: Rows, chain: Chain): set<string> {
    set id | id in rows && Open(rows[id]) && rows[id].chain == chain
  }

  predicate DeepAt(row: Row, head: int) {
    Confirmations(head, row.block) >= DefaultDepth(row.chain)
  }

  function FinalIds(rows: Rows, chain: Chain, head: int): set<string> {
    set id | id in OpenIds(rows, chain) && DeepAt(rows[id], head)
  }

  function FinalPendingIds(rows: Rows, chain: Chain, head: int): set<string> {
    set id | id in FinalIds(rows, chain, head) && rows[id].status == Pending
  }

  /** Steps still to be made at this head: two for a final pending row, one for a final confirmed row. */
  function Work(rows: Rows, chain: Chain, head: int): nat {
    |FinalIds(rows, chain, head)| + |FinalPendingIds(rows, chain, head)|
  }

  function Ids(batch: seq<string>): set<string> {
    set id | id in batch
  }

  /** An answer of the query: open rows of the chain, lowest blocks first, at most POLL_LIMIT of them;
      rows of one block may come in any order. */
  predicate IsBatch(rows: Rows, chain: Chain, batch: seq<string>) {
    (forall i :: 0 <= i < |batch| ==> batch[i] in OpenIds(rows, chain))
    && (forall i, j :: 0 <= i < j < |batch| ==> batch[i] != batch[j])
    && (forall i, j :: 0 <= i < j < |batch| ==> rows[batch[i]].block <= rows[batch[j]].block)
    && (forall id, other :: id in batch && other in OpenIds(rows, chain) && other !in batch ==>
          rows[id].block <= rows[other].block)
    && |batch| == Min(POLL_LIMIT, |OpenIds(rows, chain)|)
  }

  /** The canonical hash known for a block, "" if the RPC did not give one. */
  type Canonical = map<nat, string>

  predicate Orphaned(row: Row, canonical: Canonical) {
    row.block in canonical && HashDiffers(row, canonical[row.block])
  }

  /** Which of a row's updates raises: an exception ends the row's turn, and the cycle goes on. */
  datatype Fault = DepthFails | StatusFails | InvalidationFails

  type Faults = map<string, Fault>

  function FaultOf(faults: Faults, id: string): Option<Fault> {
    if id in faults then Some(faults[id]) else None
  }

  /** What one poll makes of a fetched row. */
  function PolledRow(row: Row, head: int, canonical: Canonical, fault: Option<Fault>): Row {
    if Orphaned(row, canonical) then
      if fault == Some(StatusFails) then row else row.(status := Reorged)
    else if fault == Some(DepthFails) then row
    else
      var deeper := row.(depth := Confirmations(head, row.block));
      if DeepAt(row, head) && fault != Some(StatusFails) then deeper.(status := NextStatus(row.status)) else deeper
  }

  /** What a row's turn announces: only what its status update has made true. */
  function Due(row: Row, head: int, canonical: Canonical, fault: Option<Fault>): Option<EventType> {
    if fault == Some(StatusFails) then None
    else if Orphaned(row, canonical) then Some(PaymentReorged)
    else if fault == Some(DepthFails) || !DeepAt(row, head) then None
    else Some(if row.status == Pending then PaymentConfirmed else PaymentFinalized)
  }

  /** A transition shows the depth stored before this poll; a reorg shows no finality. */
  function FinalityFor(row: Row, eventType: EventType): Option<FinalityStatus> {
    if eventType == PaymentReorged then None else Some(FinalityStatus(row.depth, DefaultDepth(row.chain), true))
  }

  /**
   The endpoints to be told of a row, by its id: those linked to it that could be looked up, and none if its
   transfer cannot be rebuilt.
   */
  type Targets = string -> seq<Endpoint>

  function WebhooksOf(row: Row, due: Option<EventType>, endpoints: seq<Endpoint>): seq<Payload> {
    match due
    case None => []
    case Some(t) => Map(ToWebhook(Reconstruct(row), t, FinalityFor(row, t)), Filter(Sendable(), endpoints))
  }

  /** A reorged row frees its nonces, unless one of the two updates raises. */
  function NoncesAfterTurn(
    nonces: Nonces, id: string, row: Row, canonical: Canonical, fault: Option<Fault>): Nonces
  {
    if Orphaned(row, canonical) && fault != Some(StatusFails) && fault != Some(InvalidationFails)
    then AfterInvalidation(nonces, id) else nonces
  }

  function AfterPoll(rows: Rows, done: set<string>, head: int, canonical: Canonical, faults: Faults): Rows {
    map id | id in rows ::
      if id in done then PolledRow(rows[id], head, canonical, FaultOf(faults, id)) else rows[id]
  }

  function NoncesAfterPoll(
    nonces: Nonces, rows: Rows, batch: seq<string>, canonical: Canonical, faults: Faults): Nonces
    requires forall i :: 0 <= i < |batch| ==> batch[i] in rows
  {
    if batch == [] then nonces
    else
      var front, id := batch[..|batch| - 1], batch[|batch| - 1];
      NoncesAfterTurn(NoncesAfterPoll(nonces, rows, front, canonical, faults), id, rows[id], canonical,
                      FaultOf(faults, id))
  }

  /** The webhooks of a cycle, in order. */
  function AllWebhooks(
    rows: Rows, batch: seq<string>, head: int, canonical: Canonical, faults: Faults, targets: Targets): seq<Payload>
    requires forall i :: 0 <= i < |batch| ==> batch[i] in rows
  {
    if batch == [] then []
    else
      var id := batch[|batch| - 1];
      AllWebhooks(rows, batch[..|batch| - 1], head, canonical, faults, targets)
      + WebhooksOf(rows[id], Due(rows[id], head, canonical, FaultOf(faults, id)), targets(id))
  }

  class Poller {
    const events: EventRepository
    const nonces: NonceRepository

    constructor (events: EventRepository, nonces: NonceRepository)
      ensures this.events == events && this.nonces == nonces
    {
      this.events, this.nonces := events, nonces;
    }

    method HandleReorg(
      id: string, row: Row, fault: Option<Fault>, endpoints: seq<Endpoint>, send: Endpoint -> Option<string>)
      returns (webhooks: seq<Payload>)
      requires id in events.rows && events.rows[id] == row
      modifies events, nonces
      ensures events.rows == if fault == Some(StatusFails) then old(events.rows)
                             else old(events.rows)[id := row.(status := Reorged)]
      ensures nonces.rows == if fault == Some(StatusFails) || fault == Some(InvalidationFails) then old(nonces.rows)
                             else AfterInvalidation(old(nonces.rows), id)
      ensures webhooks == WebhooksOf(row, if fault == Some(StatusFails) then None else Some(PaymentReorged), endpoints)
    {
      if fault == Some(StatusFails) {
        return [];
      }
      var _ := events.UpdateStatus(id, Reorged);
      if fault != Some(InvalidationFails) {
        var _ := nonces.InvalidateByEventId(id);
      }
      var messageIds;
      webhooks, messageIds := DispatchEvent(Reconstruct(row), endpoints, PaymentReorged, None, send);
    }

    method TransitionEvent(
      id: string, row: Row, status: Status, eventType: EventType, fault: Option<Fault>, endpoints: seq<Endpoint>,
      send: Endpoint -> Option<string>)
      returns (webhooks: seq<Payload>)
      requires id in events.rows && eventType != PaymentReorged
      modifies events
      ensures events.rows == if fault == Some(StatusFails) then old(events.rows)
                             else old(events.rows)[id := old(events.rows)[id].(status := status)]
      ensures webhooks == WebhooksOf(row, if fault == Some(StatusFails) then None else Some(eventType), endpoints)
    {
      if fault == Some(StatusFails) {
        return [];
      }
      var _ := events.UpdateStatus(id, status);
      var finality := FinalityStatus(row.depth, DefaultDepth(row.chain), true);
      var messageIds;
      webhooks, messageIds := DispatchEvent(Reconstruct(row), endpoints, eventType, Some(finality), send);
    }

    method ProcessEvent(
      id: string, row: Row, head: int, required: nat, fault: Option<Fault>, endpoints: seq<Endpoint>,
      send: Endpoint -> Option<string>)
      returns (webhooks: seq<Payload>)
      requires id in events.rows && events.rows[id] == row && Open(row) && required == DefaultDepth(row.chain)
      modifies events
      ensures events.rows == old(events.rows)[id := PolledRow(row, head, map[], fault)]
      ensures webhooks == WebhooksOf(row, Due(row, head, map[], fault), endpoints)
    {
      var confirmations := Confirmations(head, row.block);
      webhooks := [];
      if fault == Some(DepthFails) {
        return;
      }
      var _ := events.UpdateFinality(id, confirmations);
      if confirmations >= required {
        if row.status == Pending {
          webhooks := TransitionEvent(id, row, Confirmed, PaymentConfirmed, fault, endpoints, send);
        } else if row.status == Confirmed {
          webhooks := TransitionEvent(id, row, Finalized, PaymentFinalized, fault, endpoints, send);
        }
      }
    }

    method PollRow(
      id: string, row: Row, head: int, required: nat, canonical: Canonical, fault: Option<Fault>,
      endpoints: seq<Endpoint>, send: Endpoint -> Option<string>)
      returns (webhooks: seq<Payload>)
      requires id in events.rows && events.rows[id] == row && Open(row) && required == DefaultDepth(row.chain)
      modifies events, nonces
      ensures events.rows == old(events.rows)[id := PolledRow(row, head, canonical, fault)]
      ensures nonces.rows == NoncesAfterTurn(old(nonces.rows), id, row, canonical, fault)
      ensures webhooks == WebhooksOf(row, Due(row, head, canonical, fault), endpoints)
    {
      if row.block in canonical && HashDiffers(row, canonical[row.block]) {
        webhooks := HandleReorg(id, row, fault, endpoints, send);
      } else {
        webhooks := ProcessEvent(id, row, head, required, fault, endpoints, send);
      }
    }

    /** One cycle: every fetched row is advanced, deepened or marked reorged, unless its updates raise; no
        other row changes, and the endpoints of exactly the rows whose status was written are told. */
    method PollChain(
      chain: Chain, head: int, canonical: Canonical, batch: seq<string>, faults: Faults, targets: Targets,
      send: Endpoint -> Option<string>)
      returns (webhooks: seq<Payload>)
      requires IsBatch(events.rows, chain, batch)
      modifies events, nonces
      ensures events.rows == AfterPoll(old(events.rows), Ids(batch), head, canonical, faults)
      ensures nonces.rows == NoncesAfterPoll(old(nonces.rows), old(events.rows), batch, canonical, faults)
      ensures webhooks == AllWebhooks(old(events.rows), batch, head, canonical, faults, targets)
    {
      BatchRows(events.rows, chain, batch);
      webhooks := PollRows(chain, head, canonical, batch, faults, targets, send);
    }

    /** The turn of the next row of a cycle. */
    method PollNext(
      ghost before: Rows, ghost noncesBefore: Nonces, ghost done: seq<string>, id: string, row: Row, head: int,
      required: nat, canonical: Canonical, faults: Faults, targets: Targets, send: Endpoint -> Option<string>,
      sent: seq<Payload>)
      returns (webhooks: seq<Payload>)
      requires Progress(before, noncesBefore, done, head, canonical, faults, targets, events.rows, nonces.rows, sent)
      requires id in before && id !in done && before[id] == row && Open(row) && required == DefaultDepth(row.chain)
      modifies events, nonces
      ensures Progress(before, noncesBefore, done + [id], head, canonical, faults, targets,
                       events.rows, nonces.rows, webhooks)
    {
      AfterOneMore(before, done, id, head, canonical, faults);
      assert (done + [id])[..|done|] == done;
      var more := PollRow(id, row, head, required, canonical, FaultOf(faults, id), targets(id), send);
      webhooks := sent + more;
    }

    method PollRows(
      chain: Chain, head: int, canonical: Canonical, batch: seq<string>, faults: Faults, targets: Targets,
      send: Endpoint -> Option<string>)
      returns (webhooks: seq<Payload>)
      requires forall i :: 0 <= i < |batch| ==>
        batch[i] in events.rows && Open(events.rows[batch[i]]) && events.rows[batch[i]].chain == chain
        && batch[i] !in batch[..i]
      modifies events, nonces
      ensures Progress(old(events.rows), old(nonces.rows), batch, head, canonical, faults, targets,
                       events.rows, nonces.rows, webhooks)
    {
      ghost var before, noncesBefore := events.rows, nonces.rows;
      var required := DefaultDepth(chain);
      var snapshot := events.rows;
      webhooks := [];
      for i := 0 to |batch|
        invariant Progress(before, noncesBefore, batch[..i], head, canonical, faults, targets,
                           events.rows, nonces.rows, webhooks)
      {
        var id := batch[i];
        webhooks := PollNext(before, noncesBefore, batch[..i], id, snapshot[id], head, required, canonical, faults,
                             targets, send, webhooks);
        assert batch[..i + 1] == batch[..i] + [id];
      }
      assert batch[..|batch|] == batch;
    }
  }

  lemma BatchRows(rows: Rows, chain: Chain, batch: seq<string>)
    requires IsBatch(rows, chain, batch)
    ensures forall i :: 0 <= i < |batch| ==>
      batch[i] in rows && Open(rows[batch[i]]) && rows[batch[i]].chain == chain && batch[i] !in batch[..i]
  {
    forall i | 0 <= i < |batch| ensures batch[i] in OpenIds(rows, chain) && batch[i] !in batch[..i] {}
  }

  /** Where a cycle stands after the rows it has done. */
  predicate Progress(
    before: Rows, noncesBefore: Nonces, done: seq<string>, head: int, canonical: Canonical, faults: Faults,
    targets: Targets, rows: Rows, nonces: Nonces, webhooks: seq<Payload>)
  {
    (forall i :: 0 <= i < |done| ==> done[i] in before)
    && rows == AfterPoll(before, Ids(done), head, canonical, faults)
    && nonces == NoncesAfterPoll(noncesBefore, before, done, canonical, faults)
    && webhooks == AllWebhooks(before, done, head, canonical, faults, targets)
  }

  lemma AfterOneMore(rows: Rows, done: seq<string>, id: string, head: int, canonical: Canonical, faults: Faults)
    requires id in rows && id !in done
    ensures var rows' := AfterPoll(rows, Ids(done), head, canonical, faults);
      id in rows' && rows'[id] == rows[id]
      && AfterPoll(rows, Ids(done + [id]), head, canonical, faults)
         == rows'[id := PolledRow(rows[id], head, canonical, FaultOf(faults, id))]
  {
    assert Ids(done + [id]) == Ids(done) + {id};
  }

  // ----- one poll -----

  lemma {:induction false} IdsSize(batch: seq<string>)
    requires forall i, j :: 0 <= i < j < |batch| ==> batch[i] != batch[j]
    ensures |Ids(batch)| == |batch|
  {
    if batch == [] {
      assert Ids(batch) == {};
    } else {
      var front := batch[..|batch| - 1];
      IdsSize(front);
      assert Ids(batch) == Ids(front) + {batch[|batch| - 1]};
    }
  }

  /** The final rows come first: a poll reaches all of them, or fills its limit with them. */
  lemma FinalFirst(rows: Rows, chain: Chain, head: int, batch: seq<string>)
    requires IsBatch(rows, chain, batch)
    ensures var final := FinalIds(rows, chain, head);
      (final <= Ids(batch) || Ids(batch) <= final)
      && |Ids(batch) * final| == Min(POLL_LIMIT, |final|)
  {
    var final, fetched := FinalIds(rows, chain, head), Ids(batch);
    IdsSize(batch);
    if final <= fetched {
      assert fetched * final == final;
      Subset(final, OpenIds(rows, chain));
      Subset(final, fetched);
    } else {
      var left :| left in final && left !in fetched;
      forall id | id in fetched ensures id in final {
        assert rows[id].block <= rows[left].block;
      }
      assert fetched * final == fetched;
      Subset(fetched, final);
      ProperSubset(fetched, OpenIds(rows, chain), left);
    }
  }

  lemma {:induction false} Subset(a: set<string>, b: set<string>)
    requires a <= b
    ensures |a| <= |b|
  {
    assert b == a + (b - a);
    assert |b| == |a| + |b - a|;
  }

  lemma ProperSubset(a: set<string>, b: set<string>, x: string)
    requires a <= b && x in b && x !in a
    ensures |a| < |b|
  {
    Subset(a, b - {x});
  }

  /** No update of the row raises before its status is written. */
  predicate Sound(faults: Faults, id: string) {
    id in faults ==> faults[id] == InvalidationFails
  }

  /** A canonical open row moves exactly if it is deep enough and its updates succeed, and then by one step. */
  lemma RowMoves(row: Row, head: int, canonical: Canonical, faults: Faults, id: string)
    requires Open(row) && !Orphaned(row, canonical)
    ensures var status := PolledRow(row, head, canonical, FaultOf(faults, id)).status;
      (status != row.status <==> DeepAt(row, head) && Sound(faults, id))
      && (status != row.status ==> status == NextStatus(row.status))
  {}

  /**
   With canonical hashes, one poll reaches exactly min(100, number of final open rows) final rows, moves
   those whose updates succeed, each by one step, and leaves every other status alone.
   */
  lemma PollAdvancesExactly(
    rows: Rows, chain: Chain, head: int, canonical: Canonical, batch: seq<string>, faults: Faults)
    requires IsBatch(rows, chain, batch)
    requires forall id :: id in batch ==> id in rows && !Orphaned(rows[id], canonical)
    ensures var rows' := AfterPoll(rows, Ids(batch), head, canonical, faults);
      var reached := Ids(batch) * FinalIds(rows, chain, head);
      |reached| == Min(POLL_LIMIT, |FinalIds(rows, chain, head)|)
      && (forall id :: id in rows ==> (rows'[id].status != rows[id].status <==> id in reached && Sound(faults, id)))
      && (forall id :: id in reached && Sound(faults, id) ==> rows'[id].status == NextStatus(rows[id].status))
  {
    var rows' := AfterPoll(rows, Ids(batch), head, canonical, faults);
    FinalFirst(rows, chain, head, batch);
    forall id | id in Ids(batch)
      ensures rows'[id].status != rows[id].status <==> DeepAt(rows[id], head) && Sound(faults, id)
      ensures rows'[id].status != rows[id].status ==> rows'[id].status == NextStatus(rows[id].status)
    {
      RowMoves(rows[id], head, canonical, faults, id);
    }
  }

  /** Among the endpoints to be told, one with a project is told of a row exactly if the turn changed its status. */
  lemma ToldIffMoved(
    row: Row, head: int, canonical: Canonical, fault: Option<Fault>, endpoints: seq<Endpoint>, ep: Endpoint)
    requires Open(row)
    ensures (exists p :: p in WebhooksOf(row, Due(row, head, canonical, fault), endpoints) && p.endpoint == ep)
      <==> PolledRow(row, head, canonical, fault).status != row.status && ep in endpoints && HasProject(ep)
  {
    FilterMember(Sendable(), endpoints, ep);
    match Due(row, head, canonical, fault) {
      case None =>
      case Some(t) =>
        var build, told := ToWebhook(Reconstruct(row), t, FinalityFor(row, t)), Filter(Sendable(), endpoints);
        if ep in told {
          var i :| 0 <= i < |told| && told[i] == ep;
          assert Map(build, told)[i] == build(ep) && build(ep).endpoint == ep;
        }
    }
  }

  /** The webhooks of a cycle are those of its rows, no more and no less. */
  lemma {:induction false} CycleTells(
    rows: Rows, batch: seq<string>, head: int, canonical: Canonical, faults: Faults, targets: Targets, p: Payload)
    requires forall x :: x in batch ==> x in rows
    ensures p in AllWebhooks(rows, batch, head, canonical, faults, targets)
      <==> exists id :: (id in batch
        && p in WebhooksOf(rows[id], Due(rows[id], head, canonical, FaultOf(faults, id)), targets(id)))
  {
    if batch != [] {
      var front, last := batch[..|batch| - 1], batch[|batch| - 1];
      assert batch == front + [last];
      CycleTells(rows, front, head, canonical, faults, targets, p);
    }
  }

  // ----- what a cycle writes and says, in terms of the row and the chain -----

  /** The canonical hash of the row's block is known, and is another one up to case. */
  predicate Replaced(row: Row, canonical: Canonical) {
    row.block in canonical && canonical[row.block] != "" && row.blockHash != ""
    && Text.Lower(canonical[row.block]) != Text.Lower(row.blockHash)
  }

  predicate Fails(faults: Faults, id: string, fault: Fault) {
    id in faults && faults[id] == fault
  }

  /** The head is as many blocks past the row's as its chain asks for. */
  predicate Final(row: Row, head: int) {
    head - row.block >= DefaultDepth(row.chain)
  }

  /** The status a turn leaves behind: reorged, one step further, or as it was. */
  lemma StatusWritten(row: Row, head: int, canonical: Canonical, faults: Faults, id: string)
    requires row.status in {Pending, Confirmed}
    ensures var row' := PolledRow(row, head, canonical, FaultOf(faults, id));
      var steps := !Replaced(row, canonical) && Final(row, head)
        && !Fails(faults, id, StatusFails) && !Fails(faults, id, DepthFails);
      (row'.status == Reorged <==> Replaced(row, canonical) && !Fails(faults, id, StatusFails))
      && (row'.status == Finalized <==> steps && row.status == Confirmed)
      && (row'.status == Confirmed && row.status == Pending <==> steps && row.status == Pending)
      && row'.status in {row.status, Reorged, Confirmed, Finalized}
      && (row'.status == Confirmed ==> steps || row.status == Confirmed)
  {}

  /** A turn stores the confirmations at its head, unless the row is reorged or the update raises. */
  lemma DepthWritten(row: Row, head: int, canonical: Canonical, faults: Faults, id: string)
    ensures var row' := PolledRow(row, head, canonical, FaultOf(faults, id));
      row'.(depth := row.depth, status := row.status) == row
      && (Replaced(row, canonical) || Fails(faults, id, DepthFails) ==> row'.depth == row.depth)
      && (!Replaced(row, canonical) && !Fails(faults, id, DepthFails) ==>
            (head >= row.block ==> row.block + row'.depth == head) && (head < row.block ==> row'.depth == 0))
  {}

  /** The payload says what has just become true of the row, about the row's own transfer. */
  predicate Truthful(p: Payload, row: Row, row': Row) {
    row'.status != row.status
    && (p.eventType == PaymentConfirmed <==> row'.status == Confirmed)
    && (p.eventType == PaymentFinalized <==> row'.status == Finalized)
    && (p.eventType == PaymentReorged <==> row'.status == Reorged)
    && p.transfer.chain == row.chain && p.transfer.tx == row.tx && p.transfer.block == row.block
    && p.transfer.blockHash == row.blockHash && p.transfer.logIndex == row.logIndex
    && p.transfer.authorizer == row.authorizer && p.transfer.nonce == row.nonce
    && p.transfer.recipient == row.recipient
  }

  /** The depth told is the one stored before, against the endpoint's own or the chain's; a reorg tells none. */
  predicate TellsStoredDepth(p: Payload, row: Row) {
    (p.execution.finality.None? <==> p.eventType == PaymentReorged)
    && (p.execution.finality.Some? ==>
          p.execution.finality.value.confirmations == row.depth
          && p.execution.finality.value.required
             == (if p.endpoint.finalityDepth.Some? then p.endpoint.finalityDepth.value else DefaultDepth(row.chain)))
  }

  lemma TurnSays(
    row: Row, head: int, canonical: Canonical, fault: Option<Fault>, endpoints: seq<Endpoint>, p: Payload)
    requires row.status in {Pending, Confirmed}
    requires p in WebhooksOf(row, Due(row, head, canonical, fault), endpoints)
    ensures Truthful(p, row, PolledRow(row, head, canonical, fault)) && TellsStoredDepth(p, row)
    ensures p.endpoint in endpoints && HasProject(p.endpoint) && Consistent(p)
  {
    var due := Due(row, head, canonical, fault).value;
    var told := Filter(Sendable(), endpoints);
    var i :| 0 <= i < |told| && p == WebhookPayload(told[i], Reconstruct(row), due, FinalityFor(row, due));
    FilterMember(Sendable(), endpoints, told[i]);
    WebhookTells(told[i], Reconstruct(row), due, FinalityFor(row, due));
  }

  /**
   Every payload of a cycle is about a fetched row whose status the cycle changed: it is confirmed, finalized
   or reorged as the row now is, carries the row's transfer and the depth stored before, and goes to an
   endpoint that was looked up for the row.
   */
  lemma CycleSaysTheTruth(
    rows: Rows, batch: seq<string>, head: int, canonical: Canonical, faults: Faults, targets: Targets, p: Payload)
    requires forall x :: x in batch ==> x in rows && rows[x].status in {Pending, Confirmed}
    requires p in AllWebhooks(rows, batch, head, canonical, faults, targets)
    ensures exists id :: (id in batch
      && Truthful(p, rows[id], AfterPoll(rows, Ids(batch), head, canonical, faults)[id])
      && TellsStoredDepth(p, rows[id]) && p.endpoint in targets(id) && HasProject(p.endpoint) && Consistent(p))
  {
    CycleTells(rows, batch, head, canonical, faults, targets, p);
    var id :| id in batch
      && p in WebhooksOf(rows[id], Due(rows[id], head, canonical, FaultOf(faults, id)), targets(id));
    TurnSays(rows[id], head, canonical, FaultOf(faults, id), targets(id), p);
    assert id in Ids(batch);
    assert AfterPoll(rows, Ids(batch), head, canonical, faults)[id]
      == PolledRow(rows[id], head, canonical, FaultOf(faults, id));
  }

  /** What counts as final: open on the chain, in a real block, and buried by the chain's depth. */
  lemma FinalMeans(rows: Rows, chain: Chain, head: int, id: string)
    ensures id in FinalIds(rows, chain, head)
      <==> id in rows && rows[id].chain == chain && rows[id].status in {Pending, Confirmed} && rows[id].block > 0
           && head - rows[id].block >= DefaultDepth(chain)
    ensures id in FinalPendingIds(rows, chain, head)
      <==> id in FinalIds(rows, chain, head) && rows[id].status == Pending
  {}

  /** Whom a cycle's reorgs free: the nonces that carry the id of a fetched row whose block was replaced. */
  lemma {:induction false} CycleFreesIff(
    nonces: Nonces, rows: Rows, batch: seq<string>, canonical: Canonical, faults: Faults, key: AuthKey)
    requires (forall i :: 0 <= i < |batch| ==> batch[i] in rows) && key in nonces && !nonces[key].reorged
    ensures var after := NoncesAfterPoll(nonces, rows, batch, canonical, faults);
      key in after && after[key].(reorged := false) == nonces[key]
      && (after[key].reorged <==> exists id :: (id in batch && nonces[key].eventId == Some(id)
            && Replaced(rows[id], canonical)
            && !Fails(faults, id, StatusFails) && !Fails(faults, id, InvalidationFails)))
  {
    if batch != [] {
      var front, last := batch[..|batch| - 1], batch[|batch| - 1];
      assert batch == front + [last];
      CycleFreesIff(nonces, rows, front, canonical, faults, key);
    }
  }
}
