/** Budgeted sessions: the hash in Redis, its atomic decrement, and one metered tool call. */
module Session {
  import opened Wrappers

  /** A refund after the key is gone recreates a hash that holds nothing but the refunded amount. */
  datatype Hash =
    | Absent
    | Full(total: int, remaining: int, expiresAt: real)
    | Bare(remaining: int)

  datatype Denial = NotFound | Expired | InsufficientBudget

  function Balance(h: Hash): int {
    if h.Absent? then 0 else h.remaining
  }

  function SetBalance(h: Hash, remaining: int): Hash
    requires !h.Absent?
  {
    h.(remaining := remaining)
  }

  function Clamp(low: int, x: int, high: int): int {
    var capped := if x < high then x else high;
    if capped < low then low else capped
  }

  /** What a caller asks for, and the configured default and maximum. */
  datatype Limit = Limit(asked: Option<int>, default_: int, max: int)

  function Wanted(limit: Limit): int {
    if limit.asked.Some? then limit.asked.value else limit.default_
  }

  /** The budget a session is created with. */
  function EffectiveBudget(budget: Limit): (r: int)
    ensures 1 <= r && (budget.max >= 1 ==> r <= budget.max)
    ensures budget.asked.Some? && 1 <= budget.asked.value <= budget.max ==> r == budget.asked.value
    ensures budget.asked.None? && 1 <= budget.default_ <= budget.max ==> r == budget.default_
    ensures budget.asked.Some? && 1 <= budget.max < budget.asked.value ==> r == budget.max
    ensures budget.asked.Some? && budget.asked.value < 1 ==> r == 1
  {
    Clamp(1, Wanted(budget), budget.max)
  }

  /** The lifetime in seconds, never below a minute. */
  function EffectiveTtl(ttl: Limit): (r: int)
    ensures 60 <= r && (ttl.max >= 60 ==> r <= ttl.max)
    ensures ttl.asked.Some? && 60 <= ttl.asked.value <= ttl.max ==> r == ttl.asked.value
    ensures ttl.asked.None? && 60 <= ttl.default_ <= ttl.max ==> r == ttl.default_
    ensures ttl.asked.Some? && 60 <= ttl.max < ttl.asked.value ==> r == ttl.max
    ensures ttl.asked.Some? && ttl.asked.value < 60 ==> r == 60
  {
    Clamp(60, Wanted(ttl), ttl.max)
  }

  /** The script: -1, -2 and -3, in this order, or the decrement. A bare hash has no expiry. */
  function Decrement(h: Hash, cost: nat, now: real): Result<Hash, Denial> {
    if h.Absent? then Err(NotFound)
    else if h.Full? && now > h.expiresAt then Err(Expired)
    else if h.remaining < cost then Err(InsufficientBudget)
    else Ok(SetBalance(h, h.remaining - cost))
  }

  /** HINCRBY creates the hash when it is missing. */
  function Refunded(h: Hash, amount: nat): Hash {
    if h.Absent? then Bare(amount) else SetBalance(h, h.remaining + amount)
  }

  /** Only a complete hash can be read as a session: reading a bare one raises. */
  datatype Read = Missing | Unreadable | Session(remaining: int)

  function Get(h: Hash): Read {
    match h
    case Absent => Missing
    case Bare(_) => Unreadable
    case Full(_, remaining, _) => Session(remaining)
  }

  datatype Verdict = Pass | LowReputation | RateLimited

  datatype Reply =
    | Denied(denial: Denial)
    | Failed
    | Blocked(verdict: Verdict)
    | ToolRaised
    | Served(remaining: int)

  /** When a charge is refused, in terms of the hash: in this order, and a bare hash never expires. */
  predicate RefusedFor(h: Hash, cost: nat, now: real, denial: Denial) {
    match denial
    case NotFound => h.Absent?
    case Expired => h.Full? && now > h.expiresAt
    case InsufficientBudget => !h.Absent? && (h.Full? ==> now <= h.expiresAt) && h.remaining < cost
  }

  /** The later hash is the earlier one with an amount added to what remains, and nothing else changed. */
  predicate OnlyBalance(before: Hash, after: Hash, amount: nat) {
    match before
    case Absent => false
    case Full(total, remaining, expiresAt) => after == Full(total, remaining + amount, expiresAt)
    case Bare(remaining) => after == Bare(remaining + amount)
  }

  lemma DecrementLaw(h: Hash, cost: nat, now: real)
    ensures forall e: Denial :: Decrement(h, cost, now) == Err(e) <==> RefusedFor(h, cost, now, e)
    ensures Decrement(h, cost, now).Ok? ==> OnlyBalance(Decrement(h, cost, now).value, h, cost)
  {}

  class SessionManager {
    var store: map<string, Hash>

    ghost predicate Valid() reads this {
      forall id :: id in store ==> !store[id].Absent?
    }

    function Lookup(id: string): Hash reads this {
      if id in store then store[id] else Absent
    }

    constructor ()
      ensures Valid() && store == map[]
    {
      store := map[];
    }

    method Create(id: string, budget: Limit, ttl: Limit, now: real)
      requires Valid() && id !in store
      modifies this
      ensures var b := EffectiveBudget(budget);
        Valid() && store == old(store)[id := Full(b, b, now + EffectiveTtl(ttl) as real)]
    {
      var b := EffectiveBudget(budget);
      store := store[id := Full(b, b, now + EffectiveTtl(ttl) as real)];
    }

    method ValidateAndDecrement(id: string, cost: nat, now: real) returns (r: Result<int, Reply>)
      requires Valid()
      modifies this
      ensures Valid()
      ensures var d := Decrement(old(Lookup(id)), cost, now);
        match d
        case Err(e) => store == old(store) && r == Err(Denied(e))
        case Ok(h) => store == old(store)[id := h] && r == if h.Full? then Ok(h.remaining) else Err(Failed)
      ensures forall e: Denial :: r == Err(Denied(e)) <==> RefusedFor(old(Lookup(id)), cost, now, e)
      ensures r.Ok? <==> old(Lookup(id)).Full? && now <= old(Lookup(id)).expiresAt && old(Lookup(id)).remaining >= cost
      ensures r.Ok? || r == Err(Failed) ==> OnlyBalance(Lookup(id), old(Lookup(id)), cost)
      ensures r.Ok? ==> r.value == old(Lookup(id)).remaining - cost
      ensures forall other :: other != id ==> Lookup(other) == old(Lookup(other))
    {
      DecrementLaw(Lookup(id), cost, now);
      var d := Decrement(Lookup(id), cost, now);
      if d.Err? {
        return Err(Denied(d.error));
      }
      store := store[id := d.value];
      var read := Get(d.value);
      r := if read.Session? then Ok(read.remaining) else Err(Failed);
    }

    method Refund(id: string, amount: nat) returns (remaining: int)
      requires Valid()
      modifies this
      ensures Valid() && store == old(store)[id := Refunded(old(Lookup(id)), amount)]
      ensures remaining == Balance(old(Lookup(id))) + amount
      ensures if old(Lookup(id)).Absent? then Lookup(id) == Bare(amount)
              else OnlyBalance(old(Lookup(id)), Lookup(id), amount)
    {
      store := store[id := Refunded(Lookup(id), amount)];
      remaining := store[id].remaining;
    }

    method Close(id: string) returns (r: Read)
      requires Valid()
      modifies this
      ensures Valid() && r == Get(old(Lookup(id)))
      ensures store == if r.Session? then old(store) - {id} else old(store)
      ensures r == Missing <==> id !in old(store)
      ensures r.Session? <==> old(Lookup(id)).Full?
      ensures r.Session? ==> r.remaining == old(Lookup(id)).remaining
    {
      r := Get(Lookup(id));
      if r.Session? {
        store := store - {id};
      }
    }

    /**
     One call alone: it is charged once and served, or the session is left as it was. A refund that does
     not reach Redis is the one way to pay for nothing.
     */
    method HandleToolCall(id: string, cost: nat, now: real, verdict: Verdict, raises: bool, refundOk: bool)
      returns (reply: Reply)
      requires Valid()
      modifies this
      ensures Valid()
      ensures reply.Served? ==> (old(Lookup(id)).Full?
        && store == old(store)[id := SetBalance(old(Lookup(id)), Balance(old(Lookup(id))) - cost)]
        && reply.remaining == Balance(Lookup(id)) >= 0)
      ensures reply.Denied? ==> store == old(store) && Decrement(old(Lookup(id)), cost, now) == Err(reply.denial)
      ensures reply.Blocked? || reply.ToolRaised? ==> (old(Lookup(id)).Full?
        && (store == old(store) <==> refundOk || cost == 0))
      ensures reply.Failed? <==> old(Lookup(id)).Bare? && Balance(old(Lookup(id))) >= cost
      ensures reply.Served? <==> (old(Lookup(id)).Full? && Decrement(old(Lookup(id)), cost, now).Ok?
        && verdict.Pass? && !raises)
      ensures reply.Blocked? ==> reply.verdict == verdict != Pass
      ensures forall e: Denial :: reply == Denied(e) <==> RefusedFor(old(Lookup(id)), cost, now, e)
      ensures reply.Served? <==> (old(Lookup(id)).Full? && now <= old(Lookup(id)).expiresAt
        && old(Lookup(id)).remaining >= cost && verdict == Pass && !raises)
      ensures reply.Served? ==> OnlyBalance(Lookup(id), old(Lookup(id)), cost)
    {
      DecrementLaw(Lookup(id), cost, now);
      var charged := ValidateAndDecrement(id, cost, now);
      if charged.Err? {
        return charged.error;
      }
      if verdict == Pass && !raises {
        return Served(charged.value);
      }
      if cost > 0 && refundOk {
        var _ := Refund(id, cost);
      }
      reply := if verdict == Pass then ToolRaised else Blocked(verdict);
    }
  }
}
