/** One worker of the pool: failure counts, dead-lettering and the acknowledgements of a batch. */
module StreamWorker {
  const MAX_RETRIES := 5
  const FAILURE_COUNTS_MAX_AGE := 300.0

  datatype Msg = Msg(stream: string, id: string)

  /** How processing one message ended; `dlqOk` is the answer of the dead-letter write, if it is tried. */
  datatype Outcome =
    | Done
    | TimedOut(now: real, dlqOk: bool)
    | Raised(now: real, dlqOk: bool)

  type Counts = map<Msg, (nat, real)>

  function CountOf(counts: Counts, m: Msg): nat {
    if m in counts then counts[m].0 else 0
  }

  /** The failure reaches the retry limit, so the dead-letter stream is tried. */
  predicate TriesDlq(counts: Counts, m: Msg, o: Outcome) {
    !o.Done? && CountOf(counts, m) + 1 >= MAX_RETRIES
  }

  predicate DeadLettered(counts: Counts, m: Msg, o: Outcome) {
    TriesDlq(counts, m, o) && o.dlqOk
  }

  predicate Acknowledges(counts: Counts, m: Msg, o: Outcome) {
    o.Done? || DeadLettered(counts, m, o)
  }

  function CountsAfter(counts: Counts, m: Msg, o: Outcome): Counts {
    if Acknowledges(counts, m, o) then counts - {m}
    else counts[m := (CountOf(counts, m) + 1, o.now)]
  }

  /** The counts after the first k messages of a batch. */
  function CountsUpTo(counts: Counts, batch: seq<Msg>, outcomes: seq<Outcome>, k: nat): Counts
    requires k <= |batch| == |outcomes|
  {
    if k == 0 then counts
    else CountsAfter(CountsUpTo(counts, batch, outcomes, k - 1), batch[k - 1], outcomes[k - 1])
  }

  /** The messages of the first k to acknowledge, in order. */
  function AcksUpTo(counts: Counts, batch: seq<Msg>, outcomes: seq<Outcome>, k: nat): seq<Msg>
    requires k <= |batch| == |outcomes|
  {
    if k == 0 then []
    else
      var front := AcksUpTo(counts, batch, outcomes, k - 1);
      if Acknowledges(CountsUpTo(counts, batch, outcomes, k - 1), batch[k - 1], outcomes[k - 1])
      then front + [batch[k - 1]] else front
  }

  function Successes(outcomes: seq<Outcome>, k: nat): nat
    requires k <= |outcomes|
  {
    if k == 0 then 0 else Successes(outcomes, k - 1) + (if outcomes[k - 1].Done? then 1 else 0)
  }

  /** Acknowledgements grouped by stream, as one XACK per stream needs them. */
  function Grouped(acks: seq<Msg>): map<string, seq<string>> {
    if acks == [] then map[]
    else
      var front, m := Grouped(acks[..|acks| - 1]), acks[|acks| - 1];
      front[m.stream := (if m.stream in front then front[m.stream] else []) + [m.id]]
  }

  /** One acknowledgement more, as the loop adds it. */
  lemma GroupedSnoc(acks: seq<Msg>, m: Msg)
    ensures var before := Grouped(acks);
      Grouped(acks + [m]) == before[m.stream := (if m.stream in before then before[m.stream] else []) + [m.id]]
  {
    assert (acks + [m])[..|acks|] == acks;
  }

  /** Grouping neither loses nor invents an acknowledgement. */
  lemma {:induction false} GroupedExactly(acks: seq<Msg>, m: Msg)
    ensures m in acks <==> m.stream in Grouped(acks) && m.id in Grouped(acks)[m.stream]
  {
    if acks != [] {
      var front, last := acks[..|acks| - 1], acks[|acks| - 1];
      GroupedExactly(front, m);
      assert acks == front + [last];
    }
  }

  /** A message is acknowledged only if, at its turn, it succeeded or was written to the dead-letter stream. */
  lemma {:induction false} AckedForCause(counts: Counts, batch: seq<Msg>, outcomes: seq<Outcome>, k: nat, m: Msg)
    requires k <= |batch| == |outcomes| && m in AcksUpTo(counts, batch, outcomes, k)
    ensures exists i :: (0 <= i < k && batch[i] == m
      && (outcomes[i].Done? || DeadLettered(CountsUpTo(counts, batch, outcomes, i), m, outcomes[i])))
  {
    if m in AcksUpTo(counts, batch, outcomes, k - 1) {
      AckedForCause(counts, batch, outcomes, k - 1, m);
    } else {
      assert batch[k - 1] == m;
    }
  }

  // ----- the account of a batch, by outcomes and counters -----

  /** The message's turn ended well, or was at least its fifth failure and the dead-letter write worked. */
  predicate Settles(counts: Counts, m: Msg, o: Outcome) {
    o.Done? || (CountOf(counts, m) >= 4 && o.dlqOk)
  }

  /** A message is acknowledged if and only if, at some turn of it, it was settled. */
  lemma {:induction false} AckedIff(counts: Counts, batch: seq<Msg>, outcomes: seq<Outcome>, k: nat, m: Msg)
    requires k <= |batch| == |outcomes|
    ensures m in AcksUpTo(counts, batch, outcomes, k)
      <==> exists i :: (0 <= i < k && batch[i] == m && Settles(CountsUpTo(counts, batch, outcomes, i), m, outcomes[i]))
  {
    if k > 0 {
      AckedIff(counts, batch, outcomes, k - 1, m);
      assert batch[k - 1] == m && Settles(CountsUpTo(counts, batch, outcomes, k - 1), m, outcomes[k - 1]) ==>
        m in AcksUpTo(counts, batch, outcomes, k);
    }
  }

  /** How a turn counts: one failure more with its time, or none once the message is settled; no other counter moves. */
  lemma CountLaw(counts: Counts, m: Msg, o: Outcome, x: Msg)
    ensures var after := CountsAfter(counts, m, o);
      (x != m ==> CountOf(after, x) == CountOf(counts, x) && (x in after <==> x in counts)
                  && (x in after ==> after[x] == counts[x]))
      && (Settles(counts, m, o) ==> m !in after && CountOf(after, m) == 0)
      && (!Settles(counts, m, o) ==> m in after && after[m] == (CountOf(counts, m) + 1, o.now))
  {}

  /** The acknowledgements by stream are exactly those of the settled messages. */
  lemma AckMapExact(counts: Counts, batch: seq<Msg>, outcomes: seq<Outcome>)
    requires |batch| == |outcomes|
    ensures var ackMap := Grouped(AcksUpTo(counts, batch, outcomes, |batch|));
      forall m: Msg :: (m.stream in ackMap && m.id in ackMap[m.stream])
        <==> exists i :: (0 <= i < |batch| && batch[i] == m
                && Settles(CountsUpTo(counts, batch, outcomes, i), m, outcomes[i]))
  {
    var acks := AcksUpTo(counts, batch, outcomes, |batch|);
    forall m: Msg
      ensures (m.stream in Grouped(acks) && m.id in Grouped(acks)[m.stream])
        <==> exists i :: (0 <= i < |batch| && batch[i] == m
                && Settles(CountsUpTo(counts, batch, outcomes, i), m, outcomes[i]))
    {
      GroupedExactly(acks, m);
      AckedIff(counts, batch, outcomes, |batch|, m);
    }
  }

  class TriggerWorker {
    var failureCounts: Counts
    var processed: nat
    var errors: nat

    constructor ()
      ensures failureCounts == map[] && processed == 0 && errors == 0
    {
      failureCounts, processed, errors := map[], 0, 0;
    }

    /** Accounts for one processed message, and tells whether to acknowledge it. */
    method Account(m: Msg, o: Outcome) returns (acknowledge: bool)
      modifies this
      ensures acknowledge == Acknowledges(old(failureCounts), m, o)
      ensures acknowledge <==> o.Done? || (CountOf(old(failureCounts), m) >= 4 && o.dlqOk)
      ensures acknowledge <==> m !in failureCounts
      ensures !acknowledge ==> failureCounts[m] == (CountOf(old(failureCounts), m) + 1, o.now)
      ensures failureCounts == CountsAfter(old(failureCounts), m, o)
      ensures processed == old(processed) + (if o.Done? then 1 else 0)
      ensures errors == old(errors) + (if o.Done? then 0 else 1)
    {
      if o.Done? {
        processed := processed + 1;
        failureCounts := failureCounts - {m};
        return true;
      }
      errors := errors + 1;
      var newCount := CountOf(failureCounts, m) + 1;
      failureCounts := failureCounts[m := (newCount, o.now)];
      acknowledge := newCount >= MAX_RETRIES && o.dlqOk;
      if acknowledge {
        failureCounts := failureCounts - {m};
      }
    }

    /** Processes the fetched messages one after the other and collects the acknowledgements. */
    method ProcessBatch(batch: seq<Msg>, outcomes: seq<Outcome>) returns (ackMap: map<string, seq<string>>)
      requires |batch| == |outcomes|
      modifies this
      ensures failureCounts == CountsUpTo(old(failureCounts), batch, outcomes, |batch|)
      ensures ackMap == Grouped(AcksUpTo(old(failureCounts), batch, outcomes, |batch|))
      ensures forall m: Msg ::
        (m.stream in ackMap && m.id in ackMap[m.stream])
        <==> exists i :: (0 <= i < |batch| && batch[i] == m
                && Settles(CountsUpTo(old(failureCounts), batch, outcomes, i), m, outcomes[i]))
      ensures processed == old(processed) + Successes(outcomes, |batch|)
      ensures errors == old(errors) + |batch| - Successes(outcomes, |batch|)
    {
      ackMap := map[];
      for i := 0 to |batch|
        invariant failureCounts == CountsUpTo(old(failureCounts), batch, outcomes, i)
        invariant ackMap == Grouped(AcksUpTo(old(failureCounts), batch, outcomes, i))
        invariant processed == old(processed) + Successes(outcomes, i)
        invariant errors == old(errors) + i - Successes(outcomes, i)
      {
        var m := batch[i];
        var acknowledge := Account(m, outcomes[i]);
        GroupedSnoc(AcksUpTo(old(failureCounts), batch, outcomes, i), m);
        if acknowledge {
          ackMap := ackMap[m.stream := (if m.stream in ackMap then ackMap[m.stream] else []) + [m.id]];
        }
      }
      AckMapExact(old(failureCounts), batch, outcomes);
    }

    method CleanupFailureCounts(now: real)
      modifies this`failureCounts
      ensures failureCounts == Fresh(old(failureCounts), now)
      ensures forall m :: m in failureCounts <==> m in old(failureCounts) && now - old(failureCounts)[m].1 <= 300.0
      ensures forall m :: m in failureCounts ==> failureCounts[m] == old(failureCounts)[m]
    {
      failureCounts := map m | m in failureCounts && now - failureCounts[m].1 <= FAILURE_COUNTS_MAX_AGE
                           :: failureCounts[m];
    }
  }

  /** The entries a cleanup keeps. */
  function Fresh(counts: Counts, now: real): Counts {
    map m | m in counts && now - counts[m].1 <= FAILURE_COUNTS_MAX_AGE :: counts[m]
  }
}
