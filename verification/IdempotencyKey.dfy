/** The text a delivery's idempotency key is hashed from. SHA-256 is not part of this model. */
module IdempotencyKey {
  import opened Text
  import opened Finality
  import opened Tables

  function ChainId(chain: Chain): nat {
    match chain
    case Ethereum => 1
    case Base => 8453
    case Arbitrum => 42161
  }

  function TypeName(t: EventType): (r: string)
    ensures ':' !in r
  {
    match t
    case PaymentConfirmed => "payment.confirmed"
    case PaymentPending => "payment.pending"
    case PaymentPreConfirmed => "payment.pre_confirmed"
    case PaymentFailed => "payment.failed"
    case PaymentReorged => "payment.reorged"
    case PaymentFinalized => "payment.finalized"
    case TriggerMatched => "trigger.matched"
    case TriggerConfirmed => "trigger.confirmed"
    case TriggerFinalized => "trigger.finalized"
  }

  datatype Delivery = Delivery(chainId: int, tx: string, logIndex: int, endpoint: string, eventType: string)

  function Raw(d: Delivery): string {
    Decimal(d.chainId) + ":" + Lower(d.tx) + ":" + Decimal(d.logIndex) + ":" + d.endpoint + ":" + d.eventType
  }

  /** The same delivery: the transaction hash counts up to case. */
  predicate Same(d: Delivery, e: Delivery) {
    d.(tx := Lower(d.tx)) == e.(tx := Lower(e.tx))
  }

  function Plain(s: string): bool {
    ':' !in s
  }

  lemma LowerPlain(s: string)
    requires Plain(s)
    ensures Plain(Lower(s))
  {
    forall c | c in Lower(s) ensures c != ':' {
      var i :| 0 <= i < |s| && Lower(s)[i] == c;
      assert s[i] in s && c == LowerChar(s[i]);
    }
  }

  function Tail(d: Delivery): string {
    Decimal(d.logIndex) + ":" + d.endpoint + ":" + d.eventType
  }

  function Head(d: Delivery): string {
    Decimal(d.chainId) + ":" + Lower(d.tx) + ":" + Decimal(d.logIndex)
  }

  lemma Regroup(a: string, b: string, c: string, e: string, f: string)
    ensures a + ":" + b + ":" + c + ":" + e + ":" + f == a + [':'] + (b + [':'] + (c + ":" + e + ":" + f))
  {}

  /** Read from the left, transaction hashes without a colon fix everything up to the log index. */
  lemma FromTheLeft(d: Delivery, e: Delivery)
    requires Raw(d) == Raw(e) && Plain(d.tx) && Plain(e.tx)
    ensures d.chainId == e.chainId && Lower(d.tx) == Lower(e.tx) && Tail(d) == Tail(e)
  {
    DecimalFree(d.chainId, ':');
    DecimalFree(e.chainId, ':');
    Regroup(Decimal(d.chainId), Lower(d.tx), Decimal(d.logIndex), d.endpoint, d.eventType);
    Regroup(Decimal(e.chainId), Lower(e.tx), Decimal(e.logIndex), e.endpoint, e.eventType);
    var x, y := Lower(d.tx) + [':'] + Tail(d), Lower(e.tx) + [':'] + Tail(e);
    CutUnique(Decimal(d.chainId), x, Decimal(e.chainId), y, ':');
    DecimalInjective(d.chainId, e.chainId);
    LowerPlain(d.tx);
    LowerPlain(e.tx);
    CutUnique(Lower(d.tx), Tail(d), Lower(e.tx), Tail(e), ':');
  }

  /** Read from the right, endpoint ids without a colon fix everything down to the log index. */
  lemma FromTheRight(d: Delivery, e: Delivery)
    requires Raw(d) == Raw(e) && Plain(d.endpoint) && Plain(e.endpoint) && Plain(d.eventType) && Plain(e.eventType)
    ensures Same(d, e)
  {
    LastCutUnique(Head(d) + ":" + d.endpoint, d.eventType, Head(e) + ":" + e.endpoint, e.eventType, ':');
    LastCutUnique(Head(d), d.endpoint, Head(e), e.endpoint, ':');
    DecimalFree(d.logIndex, ':');
    DecimalFree(e.logIndex, ':');
    var a, b := Decimal(d.chainId) + ":" + Lower(d.tx), Decimal(e.chainId) + ":" + Lower(e.tx);
    LastCutUnique(a, Decimal(d.logIndex), b, Decimal(e.logIndex), ':');
    DecimalFree(d.chainId, ':');
    DecimalFree(e.chainId, ':');
    CutUnique(Decimal(d.chainId), Lower(d.tx), Decimal(e.chainId), Lower(e.tx), ':');
    DecimalInjective(d.chainId, e.chainId);
    DecimalInjective(d.logIndex, e.logIndex);
  }

  /** If transaction hashes or endpoint ids hold no colon, key texts are equal exactly for the same delivery. */
  lemma RawInjective(d: Delivery, e: Delivery)
    requires Plain(d.eventType) && Plain(e.eventType)
    requires (Plain(d.tx) && Plain(e.tx)) || (Plain(d.endpoint) && Plain(e.endpoint))
    ensures Raw(d) == Raw(e) <==> Same(d, e)
  {
    if Raw(d) == Raw(e) {
      if Plain(d.endpoint) && Plain(e.endpoint) {
        FromTheRight(d, e);
      } else {
        FromTheLeft(d, e);
        DecimalFree(d.logIndex, ':');
        DecimalFree(e.logIndex, ':');
        var x, y := d.endpoint + ":" + d.eventType, e.endpoint + ":" + e.eventType;
        assert Tail(d) == Decimal(d.logIndex) + [':'] + x && Tail(e) == Decimal(e.logIndex) + [':'] + y;
        CutUnique(Decimal(d.logIndex), x, Decimal(e.logIndex), y, ':');
        DecimalInjective(d.logIndex, e.logIndex);
        LastCutUnique(d.endpoint, d.eventType, e.endpoint, e.eventType, ':');
      }
    }
  }

  /** With a colon in one transaction hash and in the other's endpoint id, two deliveries can collide. */
  lemma ColonsCollide(chainId: int, n: int, m: int, tx: string, endpoint: string, eventType: string)
    ensures var d := Delivery(chainId, tx + ":" + Decimal(n), m, endpoint, eventType);
      var e := Delivery(chainId, tx, n, Decimal(m) + ":" + endpoint, eventType);
      Raw(d) == Raw(e) && !Same(d, e)
  {
    var digits := Decimal(n);
    forall i | 0 <= i < |digits| ensures LowerChar(digits[i]) == digits[i] {
      assert digits[i] in digits;
    }
    assert Lower(tx + ":" + digits) == Lower(tx) + ":" + digits;
  }

  // ----- across the events table -----

  function DeliveryOf(transfer: Transfer, endpoint: string, t: EventType): Delivery {
    Delivery(ChainId(transfer.chain), transfer.tx, transfer.logIndex, endpoint, TypeName(t))
  }

  /**
   A row that promotion wrote for a transfer is rebuilt by the poller to the same key text, for every
   endpoint and type, exactly when the row is on the transfer's chain, as a row found by its
   authorization always is.
   */
  lemma KeySurvivesPromotion(row: Row, transfer: Transfer, endpoint: string, t: EventType)
    requires Plain(transfer.tx)
    ensures var rebuilt := Reconstruct(PromotedRow(row, transfer));
      Raw(DeliveryOf(rebuilt, endpoint, t)) == Raw(DeliveryOf(transfer, endpoint, t)) <==> row.chain == transfer.chain
    ensures RowKey(row) == KeyOf(transfer) ==> row.chain == transfer.chain
  {
    SameKeyIff(Reconstruct(PromotedRow(row, transfer)), transfer, endpoint, t, t);
  }

  /** Two payloads of one endpoint carry the same key text exactly when they tell of the same log and type. */
  lemma SameKeyIff(a: Transfer, b: Transfer, endpoint: string, t: EventType, u: EventType)
    requires Plain(a.tx) && Plain(b.tx)
    ensures Raw(DeliveryOf(a, endpoint, t)) == Raw(DeliveryOf(b, endpoint, u))
      <==> a.chain == b.chain && Lower(a.tx) == Lower(b.tx) && a.logIndex == b.logIndex && t == u
  {
    RawInjective(DeliveryOf(a, endpoint, t), DeliveryOf(b, endpoint, u));
    if TypeName(t) == TypeName(u) {
      TypeNameInjective(t, u);
    }
  }

  lemma TypeNameInjective(t: EventType, u: EventType)
    requires TypeName(t) == TypeName(u)
    ensures t == u
  {
  }
}
