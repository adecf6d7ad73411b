/** The nonce and event tables and the repository calls that change them. */
module Tables {
  import opened Wrappers
  import opened Finality
  import Text

  /** Unique key of the nonce table; the authorizer is compared in lower case, the nonce as it is. */
  datatype AuthKey = AuthKey(chain: Chain, nonce: string, authorizer: string)

  datatype Source = FacilitatorPath | GoldskyPath

  datatype Nonce = Nonce(eventId: Option<string>, source: Source, reorged: bool)

  datatype Answer = Fresh | Duplicate(eventId: Option<string>, source: Source)

  datatype Status = PreConfirmed | Pending | Confirmed | Finalized | Reorged | Failed

  datatype Row = Row(
    chain: Chain, tx: string, block: nat, blockHash: string, logIndex: nat,
    authorizer: string, nonce: string, recipient: string, status: Status, depth: nat)

  function KeyOf(transfer: Transfer): AuthKey {
    AuthKey(transfer.chain, transfer.nonce, Text.Lower(transfer.authorizer))
  }

  function RowKey(row: Row): AuthKey {
    AuthKey(row.chain, row.nonce, Text.Lower(row.authorizer))
  }

  function RowFor(transfer: Transfer, status: Status, depth: nat): Row {
    Row(transfer.chain, transfer.tx, transfer.block, transfer.blockHash, transfer.logIndex,
        transfer.authorizer, transfer.nonce, transfer.recipient, status, depth)
  }

  function IngestStatus(finality: Option<FinalityStatus>): Status {
    if finality.Some? && finality.value.isFinalized then Confirmed else Pending
  }

  function StoredDepth(finality: Option<FinalityStatus>): nat {
    if finality.Some? then finality.value.confirmations else 0
  }

  /** The row the ingest stage stores for a transfer it dispatches. */
  function RecordedRow(transfer: Transfer, eventType: EventType, finality: Option<FinalityStatus>): Row {
    RowFor(transfer, if eventType == PaymentPreConfirmed then PreConfirmed else IngestStatus(finality),
           StoredDepth(finality))
  }

  /** The transfer a background task rebuilds from a stored row. */
  function Reconstruct(row: Row): Transfer {
    Transfer(row.chain, row.tx, row.block, row.blockHash, row.logIndex, row.authorizer, row.nonce, row.recipient)
  }

  /** Promotion copies the four onchain columns and sets the status, whatever the status was. */
  function PromotedRow(row: Row, transfer: Transfer): Row {
    row.(tx := transfer.tx, block := transfer.block, blockHash := transfer.blockHash,
         logIndex := transfer.logIndex, status := Confirmed)
  }

  /** The rows the poller looks at: unsettled, and with a real block. */
  predicate Open(row: Row) {
    row.status in {Pending, Confirmed} && row.block > 0
  }

  predicate HashDiffers(row: Row, canonical: string) {
    canonical != "" && row.blockHash != "" && Text.Lower(row.blockHash) != Text.Lower(canonical)
  }

  /** One step of finality. */
  function NextStatus(status: Status): Status {
    if status == Pending then Confirmed else Finalized
  }

  type Nonces = map<AuthKey, Nonce>

  function AnswerFor(nonces: Nonces, key: AuthKey): Answer {
    if key !in nonces || nonces[key].reorged then Fresh
    else Duplicate(nonces[key].eventId, nonces[key].source)
  }

  function AfterClaim(nonces: Nonces, key: AuthKey, eventId: Option<string>, source: Source): Nonces {
    if AnswerFor(nonces, key).Fresh? then nonces[key := Nonce(eventId, source, false)] else nonces
  }

  /** The claim of dynamic triggers: no event id; the source column keeps its value on a reclaim. */
  function AfterPlainClaim(nonces: Nonces, key: AuthKey): Nonces {
    if key !in nonces then nonces[key := Nonce(None, GoldskyPath, false)]
    else if nonces[key].reorged then nonces[key := Nonce(None, nonces[key].source, false)]
    else nonces
  }

  predicate Invalidated(nonces: Nonces, key: AuthKey, id: string) {
    key in nonces && nonces[key].eventId == Some(id) && !nonces[key].reorged
  }

  function AfterInvalidation(nonces: Nonces, id: string): Nonces {
    map key | key in nonces ::
      if Invalidated(nonces, key, id) then nonces[key].(reorged := true) else nonces[key]
  }

  class NonceRepository {
    var rows: Nonces

    constructor ()
      ensures rows == map[]
    {
      rows := map[];
    }

    /** Insert if absent, reclaim if reorged, otherwise tell who holds the nonce. */
    method RecordNonceOrCorrelate(key: AuthKey, eventId: Option<string>, source: Source)
      returns (answer: Answer)
      modifies this
      ensures answer == AnswerFor(old(rows), key)
      ensures rows == AfterClaim(old(rows), key, eventId, source)
      ensures key in rows && !rows[key].reorged
      ensures answer == Fresh <==> key !in old(rows) || old(rows)[key].reorged
      ensures answer == Fresh ==> rows == old(rows)[key := Nonce(eventId, source, false)]
      ensures answer != Fresh ==> rows == old(rows) && answer == Duplicate(rows[key].eventId, rows[key].source)
    {
      if key !in rows {
        rows := rows[key := Nonce(eventId, source, false)];
        return Fresh;
      }
      var existing := rows[key];
      if existing.reorged {
        rows := rows[key := Nonce(eventId, source, false)];
        return Fresh;
      }
      answer := Duplicate(existing.eventId, existing.source);
    }

    method RecordNonce(key: AuthKey) returns (isNew: bool)
      modifies this
      ensures isNew == AnswerFor(old(rows), key).Fresh?
      ensures rows == AfterPlainClaim(old(rows), key)
      ensures key in rows && !rows[key].reorged
      ensures isNew <==> key !in old(rows) || old(rows)[key].reorged
      ensures isNew ==> rows == old(rows)[key := rows[key]] && rows[key].eventId == None
      ensures isNew ==> rows[key].source == if key in old(rows) then old(rows)[key].source else GoldskyPath
      ensures !isNew ==> rows == old(rows)
    {
      isNew := false;
      if key !in rows {
        rows := rows[key := Nonce(None, GoldskyPath, false)];
        isNew := true;
      } else if rows[key].reorged {
        rows := rows[key := Nonce(None, rows[key].source, false)];
        isNew := true;
      }
    }

    method InvalidateByEventId(id: string) returns (found: bool)
      modifies this
      ensures rows == AfterInvalidation(old(rows), id)
      ensures found == exists key :: Invalidated(old(rows), key, id)
      ensures rows.Keys == old(rows).Keys
      ensures forall key :: key in rows ==>
        rows[key].reorged == (old(rows)[key].reorged || old(rows)[key].eventId == Some(id))
        && rows[key].eventId == old(rows)[key].eventId && rows[key].source == old(rows)[key].source
    {
      found := exists key | key in rows :: Invalidated(rows, key, id);
      rows := AfterInvalidation(rows, id);
    }
  }

  class EventRepository {
    var rows: map<string, Row>

    constructor ()
      ensures rows == map[]
    {
      rows := map[];
    }

    method Insert(id: string, row: Row) returns (stored: bool)
      modifies this
      ensures stored == old(id !in rows)
      ensures rows == if stored then old(rows)[id := row] else old(rows)
    {
      stored := id !in rows;
      if stored {
        rows := rows[id := row];
      }
    }

    method UpdateStatus(id: string, status: Status) returns (found: bool)
      modifies this
      ensures found == old(id in rows)
      ensures rows == if found then old(rows)[id := old(rows)[id].(status := status)] else old(rows)
    {
      found := id in rows;
      if found {
        rows := rows[id := rows[id].(status := status)];
      }
    }

    method UpdateFinality(id: string, depth: nat) returns (found: bool)
      modifies this
      ensures found == old(id in rows)
      ensures rows == if found then old(rows)[id := old(rows)[id].(depth := depth)] else old(rows)
    {
      found := id in rows;
      if found {
        rows := rows[id := rows[id].(depth := depth)];
      }
    }

    /** Unconditional on the status; keeps the authorization the row was stored for. */
    method PromoteToConfirmed(id: string, transfer: Transfer) returns (found: bool)
      modifies this
      ensures found == old(id in rows)
      ensures rows == if found then old(rows)[id := PromotedRow(old(rows)[id], transfer)] else old(rows)
      ensures found ==> RowKey(rows[id]) == old(RowKey(rows[id])) && rows[id].depth == old(rows[id].depth)
      ensures found ==> rows[id].status == Confirmed && rows[id].tx == transfer.tx && rows[id].block == transfer.block
      ensures found ==> rows[id].blockHash == transfer.blockHash && rows[id].logIndex == transfer.logIndex
      ensures found ==> rows[id].recipient == old(rows[id].recipient)
    {
      found := id in rows;
      if found {
        var row := rows[id];
        rows := rows[id := row.(tx := transfer.tx, block := transfer.block, blockHash := transfer.blockHash,
                                logIndex := transfer.logIndex, status := Confirmed)];
      }
    }
  }

  /** Which payments are one authorization: same chain and nonce as they are, same authorizer up to case. */
  lemma KeyIff(a: Transfer, b: Transfer)
    ensures KeyOf(a) == KeyOf(b)
      <==> a.chain == b.chain && a.nonce == b.nonce && Text.Lower(a.authorizer) == Text.Lower(b.authorizer)
  {}

  /** Which hashes count as a reorg: two known ones that differ by more than case. */
  lemma ReorgIff(row: Row, canonical: string)
    ensures HashDiffers(row, canonical)
      <==> row.blockHash != "" && canonical != "" && Text.Lower(canonical) != Text.Lower(row.blockHash)
    ensures canonical == row.blockHash ==> !HashDiffers(row, canonical)
  {}

  /** A row keeps the whole transfer: what a background task rebuilds is what was stored. */
  lemma RowKeepsTransfer(transfer: Transfer, status: Status, depth: nat)
    ensures Reconstruct(RowFor(transfer, status, depth)) == transfer
    ensures RowKey(RowFor(transfer, status, depth)) == KeyOf(transfer)
    ensures RowFor(transfer, status, depth).status == status && RowFor(transfer, status, depth).depth == depth
    ensures RowFor(transfer, status, depth).tx == transfer.tx
      && RowFor(transfer, status, depth).blockHash == transfer.blockHash
      && RowFor(transfer, status, depth).nonce == transfer.nonce
      && RowFor(transfer, status, depth).authorizer == transfer.authorizer
      && RowFor(transfer, status, depth).recipient == transfer.recipient
  {}
}
