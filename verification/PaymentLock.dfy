/**
 Pay-per-call tools: a claim on the payment proof is the lock around execute-then-settle.

 Any number of calls are interleaved. The claim is a key set only if absent, removed on the branches
 that let the payer retry. Its expiry after a day is not part of this model.
 */
module PaymentLock {
  datatype Key = Key(proof: string, tool: string)

  /** How the checks before the tool end; the identity lookup may raise, and the request be cancelled. */
  datatype Verdict = Pass | LowReputation | RateLimited | NoAgent | LookupRaised | Cancelled

  datatype Reply = NoReply | Error | Result(isError: bool)

  datatype Phase =
    | Arrived
    | Verified
    | Refused       // ended without a claim
    | Gating        // claimed; identity, reputation and rate limit come next
    | Running
    | Settling
    | Releasing
    | Settled
    | Stuck         // ended with its claim left in place
    | Released      // ended with its claim removed

  datatype Call = Call(key: Key, phase: Phase, reply: Reply)

  datatype State = State(held: set<Key>, calls: seq<Call>)

  datatype Event =
    | Arrive(key: Key)
    | Verify(c: nat, valid: bool)
    | Claim(c: nat, answered: bool)        // SET NX; its answer may be lost
    | ClaimFails(c: nat)                   // not applied
    | Gate(c: nat, verdict: Verdict)
    | ToolReturns(c: nat, isError: bool)
    | ToolRaises(c: nat)
    | Settle(c: nat, ok: bool)
    | Release(c: nat, applied: bool)       // DEL of the key, whoever set it
    | Abort(c: nat)                        // an exception no branch handles, or a cancelled request

  predicate In(s: State, c: nat, phase: Phase) {
    c < |s.calls| && s.calls[c].phase == phase
  }

  predicate Holds(call: Call) {
    call.phase in {Gating, Running, Settling, Releasing, Settled, Stuck}
  }

  predicate Enabled(s: State, e: Event) {
    match e
    case Arrive(_) => true
    case Verify(c, _) => In(s, c, Arrived)
    case Claim(c, _) => In(s, c, Verified)
    case ClaimFails(c) => In(s, c, Verified)
    case Gate(c, _) => In(s, c, Gating)
    case ToolReturns(c, _) => In(s, c, Running)
    case ToolRaises(c) => In(s, c, Running)
    case Settle(c, _) => In(s, c, Settling)
    case Release(c, _) => In(s, c, Releasing)
    case Abort(c) => c < |s.calls| && s.calls[c].phase in {Gating, Running, Settling, Releasing}
  }

  function Move(s: State, c: nat, phase: Phase, reply: Reply): State
    requires c < |s.calls|
  {
    s.(calls := s.calls[c := s.calls[c].(phase := phase, reply := reply)])
  }

  function ClaimStep(s: State, c: nat, answered: bool): State
    requires c < |s.calls|
  {
    var key := s.calls[c].key;
    if key in s.held then Move(s, c, Refused, Error)
    else
      Move(s.(held := s.held + {key}), c, if answered then Gating else Stuck, if answered then NoReply else Error)
  }

  function GateStep(s: State, c: nat, verdict: Verdict): State
    requires c < |s.calls|
  {
    match verdict
    case Pass => Move(s, c, Running, NoReply)
    case NoAgent => Move(s, c, Stuck, Error)
    case LookupRaised => Move(s, c, Stuck, Error)
    case Cancelled => Move(s, c, Stuck, NoReply)
    case _ => Move(s, c, Releasing, Error)
  }

  function Step(s: State, e: Event): State
    requires Enabled(s, e)
  {
    match e
    case Arrive(key) => s.(calls := s.calls + [Call(key, Arrived, NoReply)])
    case Verify(c, valid) => if valid then Move(s, c, Verified, NoReply) else Move(s, c, Refused, Error)
    case Claim(c, answered) => ClaimStep(s, c, answered)
    case ClaimFails(c) => Move(s, c, Refused, Error)
    case Gate(c, verdict) => GateStep(s, c, verdict)
    case ToolReturns(c, isError) =>
      if isError then Move(s, c, Releasing, Result(true)) else Move(s, c, Settling, NoReply)
    case ToolRaises(c) => Move(s, c, Releasing, Error)
    case Settle(c, ok) => if ok then Move(s, c, Settled, Result(false)) else Move(s, c, Releasing, Error)
    case Release(c, applied) =>
      if applied then Move(s.(held := s.held - {s.calls[c].key}), c, Released, s.calls[c].reply)
      else Move(s, c, Stuck, s.calls[c].reply)
    case Abort(c) => Move(s, c, Stuck, Error)
  }

  predicate ValidRun(s: State, es: seq<Event>)
    decreases |es|
  {
    es == [] || (Enabled(s, es[0]) && ValidRun(Step(s, es[0]), es[1..]))
  }

  function Run(s: State, es: seq<Event>): State
    requires ValidRun(s, es)
    decreases |es|
  {
    if es == [] then s else Run(Step(s, es[0]), es[1..])
  }

  // ----- the lock -----

  predicate Exclusive(s: State) {
    forall c, d :: (0 <= c < d < |s.calls| && Holds(s.calls[c]) && Holds(s.calls[d])
                    ==> s.calls[c].key != s.calls[d].key)
  }

  /** Each held key has a holder, and each holder's key is held. */
  predicate Backed(s: State) {
    (forall k :: k in s.held ==> exists c :: 0 <= c < |s.calls| && s.calls[c].key == k && Holds(s.calls[c]))
    && (forall c :: 0 <= c < |s.calls| && Holds(s.calls[c]) ==> s.calls[c].key in s.held)
  }

  /** A result without an error is only ever held by a call that settled. */
  predicate PaidFor(s: State) {
    forall c :: 0 <= c < |s.calls| ==> (s.calls[c].reply == Result(false) <==> s.calls[c].phase == Settled)
  }

  predicate Inv(s: State) {
    Exclusive(s) && Backed(s) && PaidFor(s)
  }

  /** One call moves on without touching the lock. */
  lemma KeepsClaim(s: State, c: nat, call: Call)
    requires Inv(s) && c < |s.calls| && call.key == s.calls[c].key && Holds(call) == Holds(s.calls[c])
    requires call.reply == Result(false) <==> call.phase == Settled
    ensures Inv(s.(calls := s.calls[c := call]))
  {
    var s' := s.(calls := s.calls[c := call]);
    forall k | k in s'.held ensures exists d :: 0 <= d < |s'.calls| && s'.calls[d].key == k && Holds(s'.calls[d]) {
      var d :| 0 <= d < |s.calls| && s.calls[d].key == k && Holds(s.calls[d]);
      assert s'.calls[d].key == k && Holds(s'.calls[d]);
    }
  }

  lemma TakesClaim(s: State, c: nat, call: Call)
    requires Inv(s) && c < |s.calls| && call.key == s.calls[c].key && call.key !in s.held && Holds(call)
    requires call.reply != Result(false) && call.phase != Settled
    ensures Inv(State(s.held + {call.key}, s.calls[c := call]))
  {
    var s' := State(s.held + {call.key}, s.calls[c := call]);
    forall k | k in s'.held ensures exists d :: 0 <= d < |s'.calls| && s'.calls[d].key == k && Holds(s'.calls[d]) {
      if k == call.key {
        assert s'.calls[c].key == k;
      } else {
        var d :| 0 <= d < |s.calls| && s.calls[d].key == k && Holds(s.calls[d]);
        assert s'.calls[d].key == k && Holds(s'.calls[d]);
      }
    }
  }

  lemma DropsClaim(s: State, c: nat, call: Call)
    requires Inv(s) && c < |s.calls| && call.key == s.calls[c].key && Holds(s.calls[c]) && !Holds(call)
    requires call.reply != Result(false)
    ensures Inv(State(s.held - {call.key}, s.calls[c := call]))
  {
    var s' := State(s.held - {call.key}, s.calls[c := call]);
    forall k | k in s'.held ensures exists d :: 0 <= d < |s'.calls| && s'.calls[d].key == k && Holds(s'.calls[d]) {
      var d :| 0 <= d < |s.calls| && s.calls[d].key == k && Holds(s.calls[d]);
      assert s'.calls[d].key == k && Holds(s'.calls[d]);
    }
  }

  lemma ArriveInv(s: State, key: Key)
    requires Inv(s)
    ensures Inv(Step(s, Arrive(key)))
  {
    var s' := Step(s, Arrive(key));
    forall k | k in s'.held ensures exists d :: 0 <= d < |s'.calls| && s'.calls[d].key == k && Holds(s'.calls[d]) {
      var d :| 0 <= d < |s.calls| && s.calls[d].key == k && Holds(s.calls[d]);
      assert s'.calls[d].key == k && Holds(s'.calls[d]);
    }
  }

  lemma StepInv(s: State, e: Event)
    requires Inv(s) && Enabled(s, e)
    ensures Inv(Step(s, e))
  {
    match e
    case Arrive(key) => ArriveInv(s, key);
    case Claim(c, answered) =>
      if s.calls[c].key in s.held {
        KeepsClaim(s, c, Step(s, e).calls[c]);
      } else {
        TakesClaim(s, c, Step(s, e).calls[c]);
      }
    case Release(c, applied) =>
      if applied {
        DropsClaim(s, c, Step(s, e).calls[c]);
      } else {
        KeepsClaim(s, c, Step(s, e).calls[c]);
      }
    case _ => KeepsClaim(s, e.c, Step(s, e).calls[e.c]);
  }

  lemma {:induction false} RunInv(s: State, es: seq<Event>)
    requires Inv(s) && ValidRun(s, es)
    ensures Inv(Run(s, es))
    decreases |es|
  {
    if es != [] {
      StepInv(s, es[0]);
      RunInv(Step(s, es[0]), es[1..]);
    }
  }

  /**
   In every run: two calls on one proof and tool are never both between claim and release, and never
   both settled; a result without an error belongs to a call that settled.
   */
  lemma LockHolds(es: seq<Event>, c: nat, d: nat)
    requires ValidRun(State({}, []), es)
    ensures var s := Run(State({}, []), es);
      c < |s.calls| && d < |s.calls|
      ==> ((s.calls[c].key == s.calls[d].key && Holds(s.calls[c]) && Holds(s.calls[d]) ==> c == d)
           && (s.calls[c].reply == Result(false) <==> s.calls[c].phase == Settled))
  {
    RunInv(State({}, []), es);
  }

  /** A claim is granted exactly when no call on the same proof and tool is under way, settled or stuck. */
  lemma GrantedIff(es: seq<Event>, c: nat)
    requires ValidRun(State({}, []), es) && Enabled(Run(State({}, []), es), Claim(c, true))
    ensures var s := Run(State({}, []), es);
      In(Step(s, Claim(c, true)), c, Gating)
      <==> !exists d :: 0 <= d < |s.calls| && s.calls[d].key == s.calls[c].key && Holds(s.calls[d])
  {
    RunInv(State({}, []), es);
  }

  /** A release removes the claim of the call that makes it, and no other call loses its own. */
  lemma ReleasesOwnClaim(es: seq<Event>, c: nat, applied: bool)
    requires ValidRun(State({}, []), es) && Enabled(Run(State({}, []), es), Release(c, applied))
    ensures var s := Run(State({}, []), es);
      s.calls[c].key in s.held
      && (forall d :: 0 <= d < |s.calls| && d != c && Holds(s.calls[d])
                      ==> s.calls[d].key in Step(s, Release(c, applied)).held)
  {
    RunInv(State({}, []), es);
  }

  /** One of the branches that let the payer try again. */
  predicate TurnedDown(es: seq<Event>, c: nat) {
    Gate(c, LowReputation) in es || Gate(c, RateLimited) in es
    || ToolReturns(c, true) in es || ToolRaises(c) in es || Settle(c, false) in es
  }

  /**
   What happened to a call is what the run says: it is settled exactly if its settlement went through,
   after a passed gate and a tool result without an error; it releases only after one of the failures.
   */
  lemma {:induction false} Branches(s: State, es: seq<Event>, c: nat)
    requires ValidRun(s, es)
    ensures In(Run(s, es), c, Settled) <==> In(s, c, Settled) || Settle(c, true) in es
    ensures Settle(c, true) in es ==> In(s, c, Settling) || ToolReturns(c, false) in es
    ensures ToolReturns(c, false) in es ==> In(s, c, Running) || Gate(c, Pass) in es
    ensures Release(c, true) in es || Release(c, false) in es ==> In(s, c, Releasing) || TurnedDown(es, c)
    decreases |es|
  {
    if es != [] {
      Branches(Step(s, es[0]), es[1..], c);
    }
  }

  /** Which ending each step leads to: the branches that let the payer retry release, the others do not. */
  lemma PathLaw(s: State, c: nat, verdict: Verdict, isError: bool, ok: bool)
    ensures In(s, c, Gating) ==>
      (In(Step(s, Gate(c, verdict)), c, Running) <==> verdict == Pass)
      && (In(Step(s, Gate(c, verdict)), c, Releasing) <==> verdict in {LowReputation, RateLimited})
      && (In(Step(s, Gate(c, verdict)), c, Stuck) <==> verdict in {NoAgent, LookupRaised, Cancelled})
    ensures In(s, c, Running) ==>
      In(Step(s, ToolRaises(c)), c, Releasing) && Step(s, ToolRaises(c)).calls[c].reply == Error
      && (if isError
          then In(Step(s, ToolReturns(c, isError)), c, Releasing)
               && Step(s, ToolReturns(c, isError)).calls[c].reply == Result(true)
          else In(Step(s, ToolReturns(c, isError)), c, Settling))
    ensures In(s, c, Settling) ==>
      if ok then In(Step(s, Settle(c, ok)), c, Settled) && Step(s, Settle(c, ok)).calls[c].reply == Result(false)
      else In(Step(s, Settle(c, ok)), c, Releasing) && Step(s, Settle(c, ok)).calls[c].reply == Error
    ensures In(s, c, Releasing) ==>
      In(Step(s, Release(c, ok)), c, if ok then Released else Stuck)
      && Step(s, Release(c, ok)).held == (if ok then s.held - {s.calls[c].key} else s.held)
      && Step(s, Release(c, ok)).calls[c].reply == s.calls[c].reply
    ensures Enabled(s, Abort(c)) ==> In(Step(s, Abort(c)), c, Stuck) && Step(s, Abort(c)).held == s.held
  {}

  /** Only a verified proof is ever claimed, and only a claimed one gets to the gates. */
  lemma {:induction false} VerifiedFirst(s: State, es: seq<Event>, c: nat)
    requires ValidRun(s, es)
    ensures Claim(c, true) in es || Claim(c, false) in es ==> In(s, c, Verified) || Verify(c, true) in es
    ensures Gate(c, Pass) in es ==> In(s, c, Gating) || Claim(c, true) in es
    ensures In(Run(s, es), c, Released) <==> In(s, c, Released) || Release(c, true) in es
    decreases |es|
  {
    if es != [] {
      VerifiedFirst(Step(s, es[0]), es[1..], c);
    }
  }

  /** A call for an invalid proof is refused without a claim, and no continuation lets it run. */
  lemma {:induction false} RefusedStays(s: State, es: seq<Event>, c: nat)
    requires ValidRun(s, es) && In(s, c, Refused)
    ensures In(Run(s, es), c, Refused) && Run(s, es).calls[c] == s.calls[c]
    decreases |es|
  {
    if es != [] {
      RefusedStays(Step(s, es[0]), es[1..], c);
    }
  }

  lemma InvalidIsRefused(s: State, c: nat, valid: bool)
    requires In(s, c, Arrived)
    ensures var s' := Step(s, Verify(c, valid));
      s'.held == s.held && (In(s', c, Verified) <==> valid) && (In(s', c, Refused) <==> !valid)
  {}

  predicate Spent(s: State, c: nat) {
    c < |s.calls| && s.calls[c].phase in {Settled, Stuck}
  }

  /**
   Once settled, or stuck by a failed release, a lost answer, an unknown payer or an exception, a proof
   stays spent: no other call on it ever gets past its claim.
   */
  lemma {:induction false} SpentForEver(s: State, es: seq<Event>, c: nat)
    requires Inv(s) && ValidRun(s, es) && Spent(s, c)
    ensures var s' := Run(s, es);
      Spent(s', c) && s'.calls[c] == s.calls[c] && s.calls[c].key in s'.held
      && (forall d :: 0 <= d < |s'.calls| && d != c && s'.calls[d].key == s.calls[c].key ==> !Holds(s'.calls[d]))
    decreases |es|
  {
    if es != [] {
      StepInv(s, es[0]);
      SpentForEver(Step(s, es[0]), es[1..], c);
    }
  }

  // ----- one call alone -----

  /** The answer to SET NX, which may be lost after it took effect. */
  datatype ClaimAnswer = Answered | AnswerLost | NotApplied

  datatype ToolOutcome = Returned(isError: bool) | Raised | ToolCancelled

  datatype SettleOutcome = Paid | SettleFailed | SettleCancelled

  /** The endings of the checks that leave the claim in place. */
  predicate Sticks(verdict: Verdict) {
    verdict in {NoAgent, LookupRaised, Cancelled}
  }

  /** The request is cancelled behind its claim. */
  predicate CutShort(verdict: Verdict, tool: ToolOutcome, settle: SettleOutcome) {
    verdict == Cancelled
    || (verdict == Pass && (tool == ToolCancelled || (tool == Returned(false) && settle == SettleCancelled)))
  }

  class Executor {
    var held: set<Key>

    /** The whole lifecycle of a call; each release reaches Redis or not, and a cancelled call replies nothing. */
    method Execute(
      key: Key, valid: bool, claim: ClaimAnswer, verdict: Verdict, tool: ToolOutcome, settle: SettleOutcome,
      releases: bool)
      returns (reply: Reply)
      modifies this
      ensures var claimed := valid && key !in old(held) && claim == Answered;
        (reply == Result(false) <==> claimed && verdict == Pass && tool == Returned(false) && settle == Paid)
        && (reply == Result(true) <==> claimed && verdict == Pass && tool == Returned(true))
        && (reply == NoReply <==> claimed && CutShort(verdict, tool, settle))
      ensures var set_ := valid && key !in old(held) && claim != NotApplied;
        held == if set_ && (claim == AnswerLost || !releases || Sticks(verdict) || reply in {NoReply, Result(false)})
                then old(held) + {key} else old(held)
    {
      if !valid || claim == NotApplied || key in held {
        return Error;
      }
      held := held + {key};
      if claim == AnswerLost {
        return Error;
      }
      if verdict == LowReputation || verdict == RateLimited {
        ReleaseClaim(key, releases);
        return Error;
      }
      if Sticks(verdict) {
        return if verdict == Cancelled then NoReply else Error;
      }
      if tool.ToolCancelled? {
        return NoReply;
      }
      if tool.Raised? {
        ReleaseClaim(key, releases);
        return Error;
      }
      if tool.isError {
        ReleaseClaim(key, releases);
        return Result(true);
      }
      if settle == SettleCancelled {
        return NoReply;
      }
      if settle == SettleFailed {
        ReleaseClaim(key, releases);
        return Error;
      }
      reply := Result(false);
    }

    method ReleaseClaim(key: Key, applied: bool)
      modifies this
      ensures held == if applied then old(held) - {key} else old(held)
    {
      if applied {
        held := held - {key};
      }
    }
  }
}
