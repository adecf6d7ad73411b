/**
 Any number of workers on the consumer group, interleaved.

 A message is undelivered, pending at some consumer, or acknowledged. Workers read, claim stale
 messages, decode, process, acknowledge in batches, crash and restart at any point; acknowledgement
 pipelines may take effect in part. Streams are not trimmed.
 */
module StreamRuns {
  import opened StreamWorker

  datatype Worker = Worker(
    alive: bool,
    raw: seq<Msg>,       // entries of the reply still to be decoded
    got: seq<Msg>,       // decoded entries of that reply
    inbox: seq<Msg>,     // messages to process in this iteration
    acks: seq<Msg>,      // to acknowledge at the end of the iteration
    counts: Counts)      // survives a restart of the worker

  datatype State = State(
    published: set<Msg>,
    undecodable: set<Msg>,
    undelivered: set<Msg>,
    pending: map<Msg, nat>,
    acked: set<Msg>,
    workers: seq<Worker>,
    done: set<Msg>,      // process_event returned normally
    dead: set<Msg>)      // written to the dead-letter stream

  datatype Event =
    | Publish(m: Msg, decodable: bool)
    | Read(w: nat, ms: seq<Msg>)                 // XREADGROUP: new messages
    | Claim(w: nat, ms: seq<Msg>)                // XAUTOCLAIM: pending messages of any consumer
    | Decode(w: nat)                             // an undecodable entry is acknowledged at once
    | DecodeRaise(w: nat, took: bool)         // that acknowledgement raised
    | Fetched(w: nat)
    | FetchRaise(w: nat)                         // the reply was lost
    | Process(w: nat, m: Msg, o: Outcome)
    | AckBatch(w: nat, applied: set<Msg>)        // the part of the pipeline that took effect
    | Cleanup(w: nat, now: real)
    | Crash(w: nat)
    | Restart(w: nat)
    | Reboot                                     // the whole process starts anew

  function Idle(): Worker {
    Worker(true, [], [], [], [], map[])
  }

  function Init(workers: nat): State {
    State({}, {}, {}, map[], {}, seq(workers, _ => Idle()), {}, {})
  }

  predicate Live(s: State, w: nat) {
    w < |s.workers| && s.workers[w].alive
  }

  predicate MayFetch(s: State, w: nat) {
    Live(s, w) && s.workers[w].raw == [] && s.workers[w].got == [] && s.workers[w].acks == []
  }

  predicate Enabled(s: State, e: Event) {
    match e
    case Publish(m, _) => m !in s.published
    case Read(w, ms) => MayFetch(s, w) && forall m :: m in ms ==> m in s.undelivered
    case Claim(w, ms) => MayFetch(s, w) && forall m :: m in ms ==> m in s.pending
    case Decode(w) => Live(s, w) && s.workers[w].raw != []
    case DecodeRaise(w, _) => Live(s, w) && s.workers[w].raw != [] && s.workers[w].raw[0] in s.undecodable
    case Fetched(w) => Live(s, w) && s.workers[w].raw == []
    case FetchRaise(w) => Live(s, w)
    case Process(w, m, _) => Live(s, w) && s.workers[w].raw == [] && s.workers[w].got == []
      && s.workers[w].inbox != [] && s.workers[w].inbox[0] == m
    case AckBatch(w, applied) => Live(s, w) && s.workers[w].inbox == []
      && forall m :: m in applied ==> m in s.workers[w].acks
    case Cleanup(w, _) => Live(s, w)
    case Crash(w) => Live(s, w)
    case Restart(w) => w < |s.workers|
    case Reboot => true
  }

  function SetWorker(s: State, w: nat, worker: Worker): State
    requires w < |s.workers|
  {
    s.(workers := s.workers[w := worker])
  }

  /** XACK: only a pending entry is removed. */
  function Ack(s: State, ms: set<Msg>): State {
    s.(pending := s.pending - ms, acked := s.acked + (ms * s.pending.Keys))
  }

  function Deliver(s: State, w: nat, ms: seq<Msg>): State
    requires w < |s.workers|
  {
    var batch := set m | m in ms;
    SetWorker(s.(undelivered := s.undelivered - batch,
                 pending := map m | m in s.pending.Keys + batch :: if m in batch then w else s.pending[m]),
              w, s.workers[w].(raw := ms, got := []))
  }

  function ProcessStep(s: State, w: nat, m: Msg, o: Outcome): State
    requires Enabled(s, Process(w, m, o))
  {
    var worker := s.workers[w];
    SetWorker(s, w, worker.(
        inbox := worker.inbox[1..],
        acks := worker.acks + (if Acknowledges(worker.counts, m, o) then [m] else []),
        counts := CountsAfter(worker.counts, m, o)))
      .(done := if o.Done? then s.done + {m} else s.done,
        dead := if DeadLettered(worker.counts, m, o) then s.dead + {m} else s.dead)
  }

  function Stopped(worker: Worker): Worker {
    Worker(false, [], [], [], [], worker.counts)
  }

  function Step(s: State, e: Event): State
    requires Enabled(s, e)
  {
    match e
    case Publish(m, decodable) =>
      s.(published := s.published + {m}, undelivered := s.undelivered + {m},
         undecodable := if decodable then s.undecodable else s.undecodable + {m})
    case Read(w, ms) => Deliver(s, w, ms)
    case Claim(w, ms) => Deliver(s, w, ms)
    case Decode(w) =>
      var worker := s.workers[w];
      var m := worker.raw[0];
      if m in s.undecodable then SetWorker(Ack(s, {m}), w, worker.(raw := worker.raw[1..]))
      else SetWorker(s, w, worker.(raw := worker.raw[1..], got := worker.got + [m]))
    case DecodeRaise(w, took) =>
      var worker := s.workers[w];
      SetWorker(if took then Ack(s, {worker.raw[0]}) else s, w, worker.(raw := [], got := []))
    case Fetched(w) =>
      var worker := s.workers[w];
      SetWorker(s, w, worker.(got := [], inbox := worker.inbox + worker.got))
    case FetchRaise(w) => SetWorker(s, w, s.workers[w].(raw := [], got := []))
    case Process(w, m, o) => ProcessStep(s, w, m, o)
    case AckBatch(w, applied) => SetWorker(Ack(s, applied), w, s.workers[w].(acks := []))
    case Cleanup(w, now) => SetWorker(s, w, s.workers[w].(counts := Fresh(s.workers[w].counts, now)))
    case Crash(w) => SetWorker(s, w, Stopped(s.workers[w]))
    case Restart(w) => SetWorker(s, w, Stopped(s.workers[w]).(alive := true))
    case Reboot => s.(workers := seq(|s.workers|, _ => Idle()))
  }

  predicate ValidRun(s: State, es: seq<Event>)
    decreases |es|
  {
    es == [] || (Enabled(s, es[0]) && ValidRun(Step(s, es[0]), es[1..]))
  }

  function Run(s: State, es: seq<Event>): State
    requires ValidRun(s, es)
    decreases |es|
  {
    if es == [] then s else Run(Step(s, es[0]), es[1..])
  }

  // ----- no silent loss -----

  predicate All(ms: seq<Msg>, set_: set<Msg>) {
    forall m :: m in ms ==> m in set_
  }

  predicate WorkerOk(s: State, worker: Worker) {
    All(worker.acks, s.done + s.dead)
    && All(worker.raw, s.published - s.undelivered)
    && All(worker.got, s.published - s.undecodable - s.undelivered)
    && All(worker.inbox, s.published - s.undecodable - s.undelivered)
  }

  predicate Accounted(s: State) {
    s.published == s.undelivered + s.pending.Keys + s.acked
    && s.undelivered !! s.pending.Keys && s.undelivered !! s.acked && s.pending.Keys !! s.acked
    && s.acked <= s.done + s.dead + s.undecodable
    && s.done + s.dead <= s.published - s.undecodable - s.undelivered
    && s.undecodable <= s.published
  }

  predicate Inv(s: State) {
    Accounted(s) && forall w :: 0 <= w < |s.workers| ==> WorkerOk(s, s.workers[w])
  }

  lemma SetWorkerInv(s: State, s': State, w: nat, worker: Worker)
    requires w < |s.workers| && Inv(s) && Accounted(s') && s'.workers == s.workers[w := worker]
    requires s.published == s'.published && s.undecodable == s'.undecodable && s'.undelivered <= s.undelivered
    requires s.done <= s'.done && s.dead <= s'.dead
    requires WorkerOk(s', worker)
    ensures Inv(s')
  {
    forall v | 0 <= v < |s'.workers| ensures WorkerOk(s', s'.workers[v]) {
      if v != w {
        assert WorkerOk(s, s.workers[v]);
      }
    }
  }

  lemma AckAccounted(s: State, ms: set<Msg>)
    requires Accounted(s) && ms <= s.done + s.dead + s.undecodable
    ensures Accounted(Ack(s, ms))
  {
    var s' := Ack(s, ms);
    assert s'.pending.Keys == s.pending.Keys - ms;
    assert s.pending.Keys == (s.pending.Keys - ms) + (ms * s.pending.Keys);
  }

  lemma DeliverInv(s: State, w: nat, ms: seq<Msg>)
    requires Inv(s) && w < |s.workers|
    requires forall m :: m in ms ==> m in s.undelivered || m in s.pending
    ensures Inv(Deliver(s, w, ms))
  {
    var s', batch := Deliver(s, w, ms), set m | m in ms;
    assert WorkerOk(s, s.workers[w]);
    assert s'.pending.Keys == s.pending.Keys + batch;
    SetWorkerInv(s, s', w, s'.workers[w]);
  }

  lemma ProcessInv(s: State, w: nat, m: Msg, o: Outcome)
    requires Inv(s) && Enabled(s, Process(w, m, o))
    ensures Inv(ProcessStep(s, w, m, o))
  {
    var s' := ProcessStep(s, w, m, o);
    assert WorkerOk(s, s.workers[w]) && m in s.workers[w].inbox;
    SetWorkerInv(s, s', w, s'.workers[w]);
  }

  lemma StepInv(s: State, e: Event)
    requires Inv(s) && Enabled(s, e)
    ensures Inv(Step(s, e))
  {
    var s' := Step(s, e);
    match e
    case Publish(m, _) =>
      forall v | 0 <= v < |s'.workers| ensures WorkerOk(s', s'.workers[v]) {
        assert WorkerOk(s, s.workers[v]);
      }
    case Read(w, ms) => DeliverInv(s, w, ms);
    case Claim(w, ms) => DeliverInv(s, w, ms);
    case Decode(w) =>
      var s', m := Step(s, Decode(w)), s.workers[w].raw[0];
      assert WorkerOk(s, s.workers[w]) && m in s.workers[w].raw;
      if m in s.undecodable {
        AckAccounted(s, {m});
      }
      SetWorkerInv(s, s', w, s'.workers[w]);
    case DecodeRaise(w, took) =>
      assert WorkerOk(s, s.workers[w]);
      AckAccounted(s, {s.workers[w].raw[0]});
      SetWorkerInv(s, s', w, s'.workers[w]);
    case Process(w, m, o) => ProcessInv(s, w, m, o);
    case AckBatch(w, applied) =>
      assert WorkerOk(s, s.workers[w]);
      AckAccounted(s, applied);
      SetWorkerInv(s, s', w, s'.workers[w]);
    case Reboot =>
    case _ =>
      assert WorkerOk(s, s.workers[e.w]);
      SetWorkerInv(s, s', e.w, s'.workers[e.w]);
  }

  lemma {:induction false} RunInv(s: State, es: seq<Event>)
    requires Inv(s) && ValidRun(s, es)
    ensures Inv(Run(s, es))
    decreases |es|
  {
    if es != [] {
      StepInv(s, es[0]);
      RunInv(Step(s, es[0]), es[1..]);
    }
  }

  /**
   No silent loss: in every run of any number of workers, each published message is in exactly one of
   the three places, and an acknowledged one was processed to normal return, written to the
   dead-letter stream, or has an undecodable payload (and then was neither).
   */
  lemma NoSilentLoss(workers: nat, es: seq<Event>, m: Msg)
    requires ValidRun(Init(workers), es) && m in Run(Init(workers), es).published
    ensures var s := Run(Init(workers), es);
      (m in s.undelivered && m !in s.pending && m !in s.acked)
      || (m !in s.undelivered && m in s.pending && m !in s.acked)
      || (m !in s.undelivered && m !in s.pending && m in s.acked
          && (m in s.undecodable <==> m !in s.done && m !in s.dead))
  {
    RunInv(Init(workers), es);
  }

  /** A read or a claim makes the messages the worker's, and takes from the undelivered only those. */
  lemma DeliversTo(s: State, w: nat, ms: seq<Msg>, m: Msg)
    requires w < |s.workers|
    ensures var s' := Deliver(s, w, ms);
      s'.workers[w].raw == ms && (m in ms ==> m in s'.pending && s'.pending[m] == w && m !in s'.undelivered)
      && (m !in ms ==> (m in s'.pending <==> m in s.pending) && (m in s'.undelivered <==> m in s.undelivered))
  {}

  // ----- what is finished is acknowledged -----

  /** The message was finished by this event: processed, or dead-lettered at its fifth failure or a later one. */
  predicate Finishes(s: State, e: Event, w: nat)
    requires Enabled(s, e)
  {
    e.Process? && e.w == w && (e.o.Done? || (CountOf(s.workers[w].counts, e.m) >= 4 && e.o.dlqOk))
  }

  /** What a step adds to the processed and to the dead-lettered messages. */
  lemma HistoryLaw(s: State, e: Event, m: Msg)
    requires Enabled(s, e)
    ensures m in Step(s, e).done <==> m in s.done || (e.Process? && e.m == m && e.o.Done?)
    ensures m in Step(s, e).dead
      <==> m in s.dead || (e.Process? && e.m == m && !e.o.Done? && Finishes(s, e, e.w))
  {}

  /** A reply whose fetch raises is dropped whole, what was decoded of it too; its messages stay pending. */
  lemma LostReply(s: State, w: nat, e: Event)
    requires Enabled(s, e) && (e == FetchRaise(w) || e == DecodeRaise(w, false))
    ensures var s' := Step(s, e);
      s'.workers[w] == s.workers[w].(raw := [], got := []) && s'.pending == s.pending && s'.acked == s.acked
  {}

  /** An acknowledgement, a crash or a restart ends the worker's iteration. */
  predicate EndsIteration(e: Event, w: nat) {
    (e.AckBatch? && e.w == w) || (e.Crash? && e.w == w) || (e.Restart? && e.w == w) || e.Reboot?
  }

  /** What worker w has finished in the iteration it is in at the end of a run. */
  function Finished(s: State, es: seq<Event>, w: nat, before: set<Msg>): set<Msg>
    requires ValidRun(s, es)
    decreases |es|
  {
    if es == [] then before
    else
      var now := if EndsIteration(es[0], w) then {} else if Finishes(s, es[0], w) then before + {es[0].m} else before;
      Finished(Step(s, es[0]), es[1..], w, now)
  }

  function Acks(s: State, w: nat): set<Msg> {
    if w < |s.workers| then set m | m in s.workers[w].acks else {}
  }

  lemma StepAcks(s: State, e: Event, w: nat)
    requires Enabled(s, e) && w < |s.workers|
    ensures |Step(s, e).workers| == |s.workers|
    ensures Acks(Step(s, e), w)
      == if EndsIteration(e, w) then {} else if Finishes(s, e, w) then Acks(s, w) + {e.m} else Acks(s, w)
  {}

  lemma {:induction false} FinishedIsAcks(s: State, es: seq<Event>, w: nat)
    requires ValidRun(s, es) && w < |s.workers|
    ensures |Run(s, es).workers| == |s.workers|
    ensures Acks(Run(s, es), w) == Finished(s, es, w, Acks(s, w))
    decreases |es|
  {
    if es != [] {
      StepAcks(s, es[0], w);
      FinishedIsAcks(Step(s, es[0]), es[1..], w);
    }
  }

  /**
   In every run: when a worker has emptied its inbox and its batch of acknowledgements takes effect in full,
   every message it finished in that iteration is acknowledged and pending no longer.
   */
  lemma FinishedIsAcked(workers: nat, es: seq<Event>, w: nat, m: Msg)
    requires ValidRun(Init(workers), es) && w < workers
    requires Enabled(Run(Init(workers), es), AckBatch(w, Acks(Run(Init(workers), es), w)))
    requires m in Finished(Init(workers), es, w, {})
    ensures var s := Run(Init(workers), es);
      var s' := Step(s, AckBatch(w, Acks(s, w)));
      m in s'.acked && m !in s'.pending && (m in s'.done || m in s'.dead)
  {
    var s := Run(Init(workers), es);
    RunInv(Init(workers), es);
    assert Acks(Init(workers), w) == {};
    FinishedIsAcks(Init(workers), es, w);
    assert WorkerOk(s, s.workers[w]) && m in s.workers[w].acks;
  }

  // ----- what is delivered is processed -----

  function Decodable(ms: seq<Msg>, undecodable: set<Msg>): seq<Msg> {
    if ms == [] then []
    else (if ms[0] in undecodable then [] else [ms[0]]) + Decodable(ms[1..], undecodable)
  }

  lemma RunCons(s: State, e: Event, es: seq<Event>)
    requires Enabled(s, e) && ValidRun(Step(s, e), es)
    ensures ValidRun(s, [e] + es) && Run(s, [e] + es) == Run(Step(s, e), es)
  {
    assert ([e] + es)[1..] == es;
  }

  lemma DecodeStep(s: State, w: nat)
    requires Live(s, w) && s.workers[w].raw != []
    ensures var worker, s' := s.workers[w], Step(s, Decode(w));
      Live(s', w) && s'.undecodable == s.undecodable
      && s'.workers[w] == worker.(raw := worker.raw[1..],
                                  got := worker.got + Decodable([worker.raw[0]], s.undecodable))
  {
    var m := s.workers[w].raw[0];
    assert Decodable([m][1..], s.undecodable) == [] && s.workers[w].got + [] == s.workers[w].got;
  }

  /** A reply is decoded entry by entry, in order, and goes to the inbox without its undecodable entries. */
  lemma {:induction false} ReplyReachesInbox(s: State, w: nat) returns (es: seq<Event>)
    requires Live(s, w)
    ensures ValidRun(s, es)
    ensures var worker, worker' := s.workers[w], Run(s, es).workers;
      w < |worker'| && worker'[w].raw == [] && worker'[w].got == []
      && worker'[w].inbox == worker.inbox + worker.got + Decodable(worker.raw, s.undecodable)
    decreases |s.workers[w].raw|
  {
    var worker := s.workers[w];
    if worker.raw == [] {
      es := [Fetched(w)];
      RunCons(s, Fetched(w), []);
      assert Decodable([], s.undecodable) == [] && Run(Step(s, Fetched(w)), []) == Step(s, Fetched(w));
      assert worker.inbox + worker.got + [] == worker.inbox + worker.got;
    } else {
      DecodeStep(s, w);
      var rest := ReplyReachesInbox(Step(s, Decode(w)), w);
      RunCons(s, Decode(w), rest);
      es := [Decode(w)] + rest;
      assert [worker.raw[0]][1..] == [] && Decodable([], s.undecodable) == [];
    }
  }
}
