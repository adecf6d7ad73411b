/**
 Any number of calls on one session, interleaved with closing it and with the expiry of its key.

 A call is charged, reads the session back, passes the gates, runs its tool, and refunds on three
 branches; it may stop anywhere. An update whose answer is lost may or may not have been applied.
 */
module SessionRuns {
  import opened Wrappers
  import opened Session

  datatype Phase =
    | Arrived
    | Turned        // denied before any charge
    | Charged
    | Admitted
    | Running
    | Refunding
    | Repaid        // the refund was applied
    | Kept          // the tool returned
    | Lost          // paid for nothing

  datatype Call = Call(cost: nat, phase: Phase, onFull: bool)

  datatype State = State(total: nat, hash: Hash, calls: seq<Call>, closing: nat)

  datatype Event =
    | Arrive(cost: nat)
    | Charge(c: nat, now: real)
    | ReadBack(c: nat)
    | Gate(c: nat, verdict: Verdict)
    | ToolReturns(c: nat)
    | ToolRaises(c: nat)
    | Refund(c: nat, applied: bool)
    | Vanish(c: nat)
    | CloseRead
    | CloseDelete
    | KeyExpires

  function Init(total: nat, expiresAt: real): State {
    State(total, Full(total, total, expiresAt), [], 0)
  }

  predicate In(s: State, c: nat, phase: Phase) {
    c < |s.calls| && s.calls[c].phase == phase
  }

  predicate Enabled(s: State, e: Event) {
    match e
    case Arrive(_) => true
    case Charge(c, _) => In(s, c, Arrived)
    case ReadBack(c) => In(s, c, Charged)
    case Gate(c, _) => In(s, c, Admitted)
    case ToolReturns(c) => In(s, c, Running)
    case ToolRaises(c) => In(s, c, Running)
    case Refund(c, _) => In(s, c, Refunding)
    case Vanish(c) => c < |s.calls| && s.calls[c].phase in {Charged, Admitted, Running, Refunding}
    case CloseRead => true
    case CloseDelete => s.closing > 0
    case KeyExpires => s.hash.Full?
  }

  function Move(s: State, c: nat, phase: Phase): State
    requires c < |s.calls|
  {
    s.(calls := s.calls[c := s.calls[c].(phase := phase)])
  }

  /** Only a positive price is refunded. */
  function GiveUp(s: State, c: nat): State
    requires c < |s.calls|
  {
    Move(s, c, if s.calls[c].cost > 0 then Refunding else Lost)
  }

  function ChargeStep(s: State, c: nat, now: real): State
    requires c < |s.calls|
  {
    match Decrement(s.hash, s.calls[c].cost, now)
    case Err(_) => Move(s, c, Turned)
    case Ok(h) => s.(hash := h, calls := s.calls[c := s.calls[c].(phase := Charged, onFull := s.hash.Full?)])
  }

  function Step(s: State, e: Event): State
    requires Enabled(s, e)
  {
    match e
    case Arrive(cost) => s.(calls := s.calls + [Call(cost, Arrived, false)])
    case Charge(c, now) => ChargeStep(s, c, now)
    case ReadBack(c) => Move(s, c, if Get(s.hash).Session? then Admitted else Lost)
    case Gate(c, verdict) => if verdict == Pass then Move(s, c, Running) else GiveUp(s, c)
    case ToolReturns(c) => Move(s, c, Kept)
    case ToolRaises(c) => GiveUp(s, c)
    case Refund(c, applied) =>
      if applied then Move(s.(hash := Refunded(s.hash, s.calls[c].cost)), c, Repaid) else Move(s, c, Lost)
    case Vanish(c) => Move(s, c, Lost)
    case CloseRead => if s.hash.Full? then s.(closing := s.closing + 1) else s
    case CloseDelete => s.(hash := Absent, closing := s.closing - 1)
    case KeyExpires => s.(hash := Absent)
  }

  predicate ValidRun(s: State, es: seq<Event>)
    decreases |es|
  {
    es == [] || (Enabled(s, es[0]) && ValidRun(Step(s, es[0]), es[1..]))
  }

  function Run(s: State, es: seq<Event>): State
    requires ValidRun(s, es)
    decreases |es|
  {
    if es == [] then s else Run(Step(s, es[0]), es[1..])
  }

  // ----- conservation -----

  /** What a call has paid and not got back. */
  function Paid(call: Call): nat {
    if call.phase in {Arrived, Turned, Repaid} then 0 else call.cost
  }

  function Outstanding(calls: seq<Call>): nat {
    if calls == [] then 0 else Outstanding(calls[..|calls| - 1]) + Paid(calls[|calls| - 1])
  }

  /** Past the read back, a call was charged on a complete session. */
  predicate CallOk(h: Hash, call: Call) {
    (call.phase in {Admitted, Running, Refunding, Kept} ==> call.onFull)
    && (call.phase == Charged && !call.onFull ==> !h.Full?)
  }

  predicate Inv(s: State) {
    Balance(s.hash) >= 0
    && Outstanding(s.calls) + Balance(s.hash) <= s.total
    && (s.hash.Full? ==> s.hash.total == s.total && Outstanding(s.calls) + s.hash.remaining == s.total)
    && forall c :: 0 <= c < |s.calls| ==> CallOk(s.hash, s.calls[c])
  }

  lemma {:induction false} OutstandingUpdate(calls: seq<Call>, c: nat, call: Call)
    requires c < |calls|
    ensures Outstanding(calls[c := call]) == Outstanding(calls) - Paid(calls[c]) + Paid(call)
  {
    var front := calls[..|calls| - 1];
    if c < |calls| - 1 {
      assert calls[c := call][..|calls| - 1] == front[c := call];
      OutstandingUpdate(front, c, call);
    } else {
      assert calls[c := call][..|calls| - 1] == front;
    }
  }

  /** What one call does to the books when it moves on and the hash changes with it. */
  lemma CallMoves(s: State, s': State, c: nat)
    requires Inv(s) && c < |s.calls| == |s'.calls| && s'.calls == s.calls[c := s'.calls[c]] && s'.total == s.total
    requires Balance(s'.hash) >= 0 && Paid(s'.calls[c]) + Balance(s'.hash) <= Paid(s.calls[c]) + Balance(s.hash)
    requires s'.hash.Full? ==> (s.hash.Full? && s'.hash.total == s.total
      && Paid(s'.calls[c]) + Balance(s'.hash) == Paid(s.calls[c]) + Balance(s.hash))
    requires CallOk(s'.hash, s'.calls[c])
    ensures Inv(s')
  {
    OutstandingUpdate(s.calls, c, s'.calls[c]);
    forall d | 0 <= d < |s'.calls| ensures CallOk(s'.hash, s'.calls[d]) {
      assert CallOk(s.hash, s.calls[d]);
    }
  }

  /** A call moves on and neither pays nor gets anything back. */
  lemma MoveInv(s: State, c: nat, phase: Phase)
    requires Inv(s) && c < |s.calls| && Paid(s.calls[c].(phase := phase)) == Paid(s.calls[c])
    requires CallOk(s.hash, s.calls[c].(phase := phase))
    ensures Inv(Move(s, c, phase)) && Move(s, c, phase).total == s.total
  {
    CallMoves(s, Move(s, c, phase), c);
  }

  lemma ChargeInv(s: State, c: nat, now: real)
    requires Inv(s) && In(s, c, Arrived)
    ensures Inv(ChargeStep(s, c, now)) && ChargeStep(s, c, now).total == s.total
  {
    var d := Decrement(s.hash, s.calls[c].cost, now);
    if d.Ok? {
      CallMoves(s, ChargeStep(s, c, now), c);
    } else {
      MoveInv(s, c, Turned);
    }
  }

  lemma GiveUpInv(s: State, c: nat)
    requires Inv(s) && c < |s.calls| && s.calls[c].phase in {Admitted, Running}
    ensures Inv(GiveUp(s, c)) && GiveUp(s, c).total == s.total
  {
    assert CallOk(s.hash, s.calls[c]);
    MoveInv(s, c, if s.calls[c].cost > 0 then Refunding else Lost);
  }

  lemma GateInv(s: State, c: nat, verdict: Verdict)
    requires Inv(s) && In(s, c, Admitted)
    ensures var s' := Step(s, Gate(c, verdict)); Inv(s') && s'.total == s.total
  {
    assert CallOk(s.hash, s.calls[c]);
    if verdict == Pass {
      MoveInv(s, c, Running);
    } else {
      GiveUpInv(s, c);
    }
  }

  lemma RefundInv(s: State, c: nat, applied: bool)
    requires Inv(s) && In(s, c, Refunding)
    ensures var s' := Step(s, Refund(c, applied)); Inv(s') && s'.total == s.total
  {
    if applied {
      CallMoves(s, Step(s, Refund(c, true)), c);
    } else {
      MoveInv(s, c, Lost);
    }
  }

  lemma EndInv(s: State, c: nat, phase: Phase)
    requires Inv(s) && c < |s.calls| && s.calls[c].phase in {Charged, Admitted, Running, Refunding}
    requires phase == Lost || (phase == Kept && s.calls[c].phase == Running)
    ensures Inv(Move(s, c, phase)) && Move(s, c, phase).total == s.total
  {
    assert CallOk(s.hash, s.calls[c]);
    MoveInv(s, c, phase);
  }

  /** The session is closed, or its key expires. */
  lemma HashGoes(s: State, closing: nat)
    requires Inv(s)
    ensures Inv(s.(hash := Absent, closing := closing))
  {
    var s' := s.(hash := Absent, closing := closing);
    forall d | 0 <= d < |s'.calls| ensures CallOk(s'.hash, s'.calls[d]) {
      assert CallOk(s.hash, s.calls[d]);
    }
  }

  lemma StepInv(s: State, e: Event)
    requires Inv(s) && Enabled(s, e)
    ensures Inv(Step(s, e)) && Step(s, e).total == s.total
  {
    match e
    case Arrive(cost) => assert Step(s, Arrive(cost)).calls[..|s.calls|] == s.calls;
    case Charge(c, now) => ChargeInv(s, c, now);
    case ReadBack(c) =>
      assert CallOk(s.hash, s.calls[c]);
      MoveInv(s, c, if Get(s.hash).Session? then Admitted else Lost);
    case Gate(c, verdict) => GateInv(s, c, verdict);
    case ToolReturns(c) => EndInv(s, c, Kept);
    case ToolRaises(c) => GiveUpInv(s, c);
    case Refund(c, applied) => RefundInv(s, c, applied);
    case Vanish(c) => EndInv(s, c, Lost);
    case CloseRead =>
    case CloseDelete => HashGoes(s, s.closing - 1);
    case KeyExpires => HashGoes(s, s.closing);
  }

  lemma {:induction false} RunInv(s: State, es: seq<Event>)
    requires Inv(s) && ValidRun(s, es)
    ensures Inv(Run(s, es)) && Run(s, es).total == s.total
    decreases |es|
  {
    if es != [] {
      StepInv(s, es[0]);
      RunInv(Step(s, es[0]), es[1..]);
    }
  }

  /**
   Under any interleaving: while the session's hash exists, what remains and what is paid add up to the
   budget; paid charges never pass the budget, even after the session is closed; and every call that
   got past the charge was charged on the complete session.
   */
  lemma BudgetConserved(total: nat, expiresAt: real, es: seq<Event>)
    requires ValidRun(Init(total, expiresAt), es)
    ensures var s := Run(Init(total, expiresAt), es);
      Outstanding(s.calls) <= total
      && Account(s) + Discarded(Init(total, expiresAt), es) == total
      && (s.hash.Full? ==> s.hash.remaining + Outstanding(s.calls) == total
                           && 0 <= s.hash.remaining <= s.hash.total == total)
      && forall c :: 0 <= c < |s.calls| && s.calls[c].phase in {Running, Kept} ==> s.calls[c].onFull
  {
    RunInv(Init(total, expiresAt), es);
    AccountsBalance(Init(total, expiresAt), es);
    var s := Run(Init(total, expiresAt), es);
    forall c | 0 <= c < |s.calls| && s.calls[c].phase in {Running, Kept} ensures s.calls[c].onFull {
      assert CallOk(s.hash, s.calls[c]);
    }
  }

  // ----- the exact account -----

  /** What a step takes out of the hash without any call being paid: a close or an expiry. */
  function Dropped(s: State, e: Event): int {
    if e.CloseDelete? || e.KeyExpires? then Balance(s.hash) else 0
  }

  function Discarded(s: State, es: seq<Event>): int
    requires ValidRun(s, es)
    decreases |es|
  {
    if es == [] then 0 else Dropped(s, es[0]) + Discarded(Step(s, es[0]), es[1..])
  }

  /** Every close and every expiry of the run finds a zero balance. */
  predicate ClosedEmpty(s: State, es: seq<Event>)
    requires ValidRun(s, es)
    decreases |es|
  {
    es == [] || (Dropped(s, es[0]) == 0 && ClosedEmpty(Step(s, es[0]), es[1..]))
  }

  function Account(s: State): int {
    Outstanding(s.calls) + Balance(s.hash)
  }

  lemma MoveAccount(s: State, c: nat, phase: Phase)
    requires c < |s.calls| && Paid(s.calls[c].(phase := phase)) == Paid(s.calls[c])
    ensures Account(Move(s, c, phase)) == Account(s)
  {
    OutstandingUpdate(s.calls, c, s.calls[c].(phase := phase));
  }

  lemma StepAccount(s: State, e: Event)
    requires Enabled(s, e)
    ensures Account(Step(s, e)) + Dropped(s, e) == Account(s)
  {
    match e
    case Arrive(cost) => assert Step(s, e).calls[..|s.calls|] == s.calls;
    case Charge(c, now) => OutstandingUpdate(s.calls, c, ChargeStep(s, c, now).calls[c]);
    case ReadBack(c) => MoveAccount(s, c, if Get(s.hash).Session? then Admitted else Lost);
    case Gate(c, verdict) =>
      MoveAccount(s, c, if verdict == Pass then Running else if s.calls[c].cost > 0 then Refunding else Lost);
    case ToolReturns(c) => MoveAccount(s, c, Kept);
    case ToolRaises(c) => MoveAccount(s, c, if s.calls[c].cost > 0 then Refunding else Lost);
    case Refund(c, applied) =>
      if applied {
        OutstandingUpdate(s.calls, c, s.calls[c].(phase := Repaid));
      } else {
        MoveAccount(s, c, Lost);
      }
    case Vanish(c) => MoveAccount(s, c, Lost);
    case CloseRead =>
    case CloseDelete =>
    case KeyExpires =>
  }

  /** In every run, what is paid, what remains and what closes and expiries threw away add up. */
  lemma {:induction false} AccountsBalance(s: State, es: seq<Event>)
    requires ValidRun(s, es)
    ensures Account(Run(s, es)) + Discarded(s, es) == Account(s)
    decreases |es|
  {
    if es != [] {
      StepAccount(s, es[0]);
      AccountsBalance(Step(s, es[0]), es[1..]);
    }
  }

  lemma {:induction false} NothingDiscardedIff(s: State, es: seq<Event>)
    requires Inv(s) && ValidRun(s, es)
    ensures Discarded(s, es) >= 0 && (Discarded(s, es) == 0 <==> ClosedEmpty(s, es))
    decreases |es|
  {
    if es != [] {
      StepInv(s, es[0]);
      NothingDiscardedIff(Step(s, es[0]), es[1..]);
    }
  }

  /**
   The budget is conserved, in the hash as it is and in the calls, by exactly those runs in which every
   close and every expiry found a zero balance; every other run has lost what it discarded.
   */
  lemma BudgetConservedIff(total: nat, expiresAt: real, es: seq<Event>)
    requires ValidRun(Init(total, expiresAt), es)
    ensures Account(Run(Init(total, expiresAt), es)) == total - Discarded(Init(total, expiresAt), es)
    ensures Account(Run(Init(total, expiresAt), es)) == total <==> ClosedEmpty(Init(total, expiresAt), es)
  {
    AccountsBalance(Init(total, expiresAt), es);
    NothingDiscardedIff(Init(total, expiresAt), es);
  }

  // ----- refunds -----

  /** How often call c is charged, and how often it is refunded, in a run from s. */
  function Charges(s: State, es: seq<Event>, c: nat): nat
    requires ValidRun(s, es)
    decreases |es|
  {
    if es == [] then 0
    else
      var s' := Step(s, es[0]);
      (if es[0].Charge? && es[0].c == c && In(s', c, Charged) then 1 else 0) + Charges(s', es[1..], c)
  }

  function Refunds(es: seq<Event>, c: nat): nat {
    if es == [] then 0 else (if es[0].Refund? && es[0].c == c then 1 else 0) + Refunds(es[1..], c)
  }

  function ChargesLeft(s: State, c: nat): nat {
    if c >= |s.calls| || s.calls[c].phase == Arrived then 1 else 0
  }

  predicate HasPaid(s: State, c: nat) {
    c < |s.calls| && s.calls[c].phase in {Charged, Admitted, Running, Refunding}
  }

  lemma {:induction false} RefundsFollowCharges(s: State, es: seq<Event>, c: nat)
    requires ValidRun(s, es)
    ensures Charges(s, es, c) <= ChargesLeft(s, c)
    ensures Refunds(es, c) <= (if HasPaid(s, c) then 1 else 0) + Charges(s, es, c)
    decreases |es|
  {
    if es != [] {
      RefundsFollowCharges(Step(s, es[0]), es[1..], c);
    }
  }

  /** Each call is charged at most once, and refunded at most once and only after its own charge. */
  lemma RefundedAtMostOnce(total: nat, expiresAt: real, es: seq<Event>, c: nat)
    requires ValidRun(Init(total, expiresAt), es)
    ensures Refunds(es, c) <= Charges(Init(total, expiresAt), es, c) <= 1
  {
    RefundsFollowCharges(Init(total, expiresAt), es, c);
  }

  // ----- which branch refunds -----

  /** A gate or the tool turned the call down. */
  predicate TurnedDown(es: seq<Event>, c: nat) {
    ToolRaises(c) in es || Gate(c, LowReputation) in es || Gate(c, RateLimited) in es
  }

  /**
   What happened to a call is what the run says: it is served exactly if its tool returned, which takes
   a passed gate; it is repaid exactly if a refund was applied, which takes one of the three failures.
   */
  lemma {:induction false} Branches(s: State, es: seq<Event>, c: nat)
    requires ValidRun(s, es)
    ensures In(Run(s, es), c, Kept) <==> In(s, c, Kept) || ToolReturns(c) in es
    ensures In(Run(s, es), c, Repaid) <==> In(s, c, Repaid) || Refund(c, true) in es
    ensures ToolReturns(c) in es ==> In(s, c, Running) || Gate(c, Pass) in es
    ensures Refund(c, true) in es || Refund(c, false) in es ==> In(s, c, Refunding) || TurnedDown(es, c)
    decreases |es|
  {
    if es != [] {
      Branches(Step(s, es[0]), es[1..], c);
    }
  }

  // ----- what each step decides -----

  /** A call is turned away exactly for the three reasons, and otherwise pays its own price. */
  lemma ChargeLaw(s: State, c: nat, now: real)
    requires In(s, c, Arrived)
    ensures var s', cost := Step(s, Charge(c, now)), s.calls[c].cost;
      (In(s', c, Turned) <==> s.hash.Absent? || (s.hash.Full? && now > s.hash.expiresAt) || s.hash.remaining < cost)
      && (In(s', c, Turned) ==> s'.hash == s.hash)
      && (!In(s', c, Turned) ==> In(s', c, Charged) && OnlyBalance(s'.hash, s.hash, cost))
  {}

  lemma {:induction false} TurnedStays(s: State, es: seq<Event>, c: nat)
    requires ValidRun(s, es) && In(s, c, Turned)
    ensures In(Run(s, es), c, Turned)
    ensures ToolReturns(c) !in es && ToolRaises(c) !in es
    decreases |es|
  {
    if es != [] {
      TurnedStays(Step(s, es[0]), es[1..], c);
    }
  }

  /** A call that is charged after its complete session expired is turned, costs nothing, and never runs its tool. */
  lemma ExpiredNeverRuns(s: State, c: nat, now: real, es: seq<Event>)
    requires In(s, c, Arrived) && s.hash.Full? && now > s.hash.expiresAt && ValidRun(Step(s, Charge(c, now)), es)
    ensures Step(s, Charge(c, now)).hash == s.hash
    ensures In(Run(Step(s, Charge(c, now)), es), c, Turned) && ToolReturns(c) !in es && ToolRaises(c) !in es
  {
    ChargeLaw(s, c, now);
    TurnedStays(Step(s, Charge(c, now)), es, c);
  }

  /** A close removes the hash only if it first read a complete session; a request that stops refunds nothing. */
  lemma EndLaw(s: State, c: nat)
    ensures Step(s, CloseRead).closing == s.closing + (if s.hash.Full? then 1 else 0)
      && Step(s, CloseRead).hash == s.hash && Step(s, CloseRead).calls == s.calls
    ensures s.closing > 0 ==> Step(s, CloseDelete).hash == Absent && Step(s, CloseDelete).calls == s.calls
    ensures s.hash.Full? ==> Step(s, KeyExpires).hash == Absent && Step(s, KeyExpires).calls == s.calls
    ensures Enabled(s, Vanish(c)) ==> In(Step(s, Vanish(c)), c, Lost) && Step(s, Vanish(c)).hash == s.hash
  {}

  /** Reading back admits a call exactly while the session is complete; a priced failure is to be refunded. */
  lemma PathLaw(s: State, c: nat, verdict: Verdict)
    ensures In(s, c, Charged) ==> (In(Step(s, ReadBack(c)), c, Admitted) <==> s.hash.Full?)
    ensures In(s, c, Admitted) ==> (In(Step(s, Gate(c, verdict)), c, Running) <==> verdict == Pass)
    ensures In(s, c, Admitted) && verdict != Pass ==>
      (In(Step(s, Gate(c, verdict)), c, Refunding) <==> s.calls[c].cost > 0)
    ensures In(s, c, Running) ==> (In(Step(s, ToolRaises(c)), c, Refunding) <==> s.calls[c].cost > 0)
  {}

  // ----- after the session is gone -----

  /**
   Once the hash is gone a refund leaves a bare hash behind. From then on the session can never be read:
   no call that has not been charged yet will run its tool.
   */
  predicate Gone(s: State, c: nat) {
    !s.hash.Full? && !(c < |s.calls| && s.calls[c].phase in {Admitted, Running, Kept})
  }

  lemma {:induction false} NoServiceAfterClose(s: State, es: seq<Event>, c: nat)
    requires Gone(s, c) && ValidRun(s, es)
    ensures Gone(Run(s, es), c)
    decreases |es|
  {
    if es != [] {
      NoServiceAfterClose(Step(s, es[0]), es[1..], c);
    }
  }

  lemma {:induction false} RunAppend(s: State, a: seq<Event>, b: seq<Event>)
    requires ValidRun(s, a) && ValidRun(Run(s, a), b)
    ensures ValidRun(s, a + b) && Run(s, a + b) == Run(Run(s, a), b)
    decreases |a|
  {
    if a == [] {
      assert a + b == b;
    } else {
      assert (a + b)[1..] == a[1..] + b;
      RunAppend(Step(s, a[0]), a[1..], b);
    }
  }

  lemma Extend(s: State, es: seq<Event>, e: Event)
    requires ValidRun(s, es) && Enabled(Run(s, es), e)
    ensures ValidRun(s, es + [e]) && Run(s, es + [e]) == Step(Run(s, es), e)
  {
    assert [e][1..] == [] && Run(Step(Run(s, es), e), []) == Step(Run(s, es), e);
    RunAppend(s, es, [e]);
  }

  lemma Closes(s: State) returns (es: seq<Event>)
    requires s.hash.Full?
    ensures ValidRun(s, es) && Run(s, es) == s.(hash := Absent)
  {
    Extend(s, [], CloseRead);
    es := [] + [CloseRead];
    Extend(s, es, CloseDelete);
    es := es + [CloseDelete];
  }

  /**
   The sum is not kept past a close: from any state in which a call is about to refund, closing first
   leaves the call's money in a bare hash, and what remained in the session is gone.
   */
  lemma RefundAfterClose(s: State, c: nat) returns (es: seq<Event>)
    requires Inv(s) && s.hash.Full? && In(s, c, Refunding)
    ensures ValidRun(s, es) && Run(s, es).hash == Bare(s.calls[c].cost)
    ensures Outstanding(Run(s, es).calls) + Balance(Run(s, es).hash) == s.total - s.hash.remaining
  {
    es := Closes(s);
    var closed := s.(hash := Absent);
    Extend(s, es, Refund(c, true));
    OutstandingUpdate(closed.calls, c, closed.calls[c].(phase := Repaid));
    es := es + [Refund(c, true)];
  }

  lemma ReachRefunding(total: nat, cost: nat, expiresAt: real) returns (es: seq<Event>)
    requires 0 < cost <= total
    ensures ValidRun(Init(total, expiresAt), es)
    ensures Run(Init(total, expiresAt), es)
      == State(total, Full(total, total - cost, expiresAt), [Call(cost, Refunding, true)], 0)
  {
    var s0 := Init(total, expiresAt);
    Extend(s0, [], Arrive(cost));
    es := [] + [Arrive(cost)];
    Extend(s0, es, Charge(0, expiresAt));
    es := es + [Charge(0, expiresAt)];
    Extend(s0, es, ReadBack(0));
    es := es + [ReadBack(0)];
    Extend(s0, es, Gate(0, LowReputation));
    es := es + [Gate(0, LowReputation)];
  }

  /** Such a run from a new session: the call is repaid, and only its cost is left of the budget. */
  lemma BudgetLostByClose(total: nat, cost: nat, expiresAt: real) returns (es: seq<Event>)
    requires 0 < cost <= total
    ensures var s0 := Init(total, expiresAt);
      ValidRun(s0, es) && Run(s0, es).hash == Bare(cost) && Outstanding(Run(s0, es).calls) == 0
  {
    var s0 := Init(total, expiresAt);
    var first := ReachRefunding(total, cost, expiresAt);
    RunInv(s0, first);
    var rest := RefundAfterClose(Run(s0, first), 0);
    RunAppend(s0, first, rest);
    RunInv(s0, first + rest);
    es := first + rest;
  }
}
