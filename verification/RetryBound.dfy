/** How often a message can fail before the dead-letter stream is tried, over all workers together. */
module RetryBound {
  import opened StreamWorker
  import opened StreamRuns

  predicate FailsFor(e: Event, m: Msg) {
    e.Process? && e.m == m && !e.o.Done?
  }

  function Failures(es: seq<Event>, m: Msg): nat {
    if es == [] then 0 else (if FailsFor(es[0], m) then 1 else 0) + Failures(es[1..], m)
  }

  /** The event neither finishes m, nor tries the dead-letter stream for it, nor drops a counter of it. */
  predicate Quiet(s: State, e: Event, m: Msg)
    requires Enabled(s, e)
  {
    match e
    case Process(w, x, o) => x == m ==> !o.Done? && !TriesDlq(s.workers[w].counts, m, o)
    case Cleanup(w, now) => CountOf(Fresh(s.workers[w].counts, now), m) == CountOf(s.workers[w].counts, m)
    case Reboot => false
    case _ => true
  }

  predicate QuietRun(s: State, es: seq<Event>, m: Msg)
    decreases |es|
  {
    es == [] || (Enabled(s, es[0]) && Quiet(s, es[0], m) && QuietRun(Step(s, es[0]), es[1..], m))
  }

  lemma {:induction false} QuietRunIsRun(s: State, es: seq<Event>, m: Msg)
    requires QuietRun(s, es, m)
    ensures ValidRun(s, es)
    decreases |es|
  {
    if es != [] {
      QuietRunIsRun(Step(s, es[0]), es[1..], m);
    }
  }

  function Total(ws: seq<Worker>, m: Msg): nat {
    if ws == [] then 0 else CountOf(ws[0].counts, m) + Total(ws[1..], m)
  }

  lemma {:induction false} TotalUpdate(ws: seq<Worker>, w: nat, worker: Worker, m: Msg)
    requires w < |ws|
    ensures Total(ws[w := worker], m) == Total(ws, m) - CountOf(ws[w].counts, m) + CountOf(worker.counts, m)
  {
    if w == 0 {
      assert ws[0 := worker][1..] == ws[1..];
    } else {
      assert ws[w := worker][1..] == ws[1..][w - 1 := worker];
      TotalUpdate(ws[1..], w - 1, worker, m);
    }
  }

  predicate BelowLimit(ws: seq<Worker>, m: Msg) {
    forall w :: 0 <= w < |ws| ==> CountOf(ws[w].counts, m) < MAX_RETRIES
  }

  lemma {:induction false} Pigeonhole(ws: seq<Worker>, m: Msg)
    requires BelowLimit(ws, m)
    ensures Total(ws, m) <= |ws| * (MAX_RETRIES - 1)
    ensures Total(ws, m) == |ws| * (MAX_RETRIES - 1)
      ==> forall w :: 0 <= w < |ws| ==> CountOf(ws[w].counts, m) == MAX_RETRIES - 1
  {
    if ws != [] {
      assert forall w :: 0 <= w < |ws[1..]| ==> ws[1..][w] == ws[w + 1];
      Pigeonhole(ws[1..], m);
      assert forall w :: 0 < w < |ws| ==> ws[w] == ws[1..][w - 1];
    }
  }

  lemma QuietStep(s: State, e: Event, m: Msg)
    requires Enabled(s, e) && Quiet(s, e, m) && BelowLimit(s.workers, m)
    ensures var s' := Step(s, e);
      |s'.workers| == |s.workers| && BelowLimit(s'.workers, m)
      && Total(s'.workers, m) == Total(s.workers, m) + (if FailsFor(e, m) then 1 else 0)
  {
    if !e.Publish? {
      TotalUpdate(s.workers, e.w, Step(s, e).workers[e.w], m);
    }
  }

  lemma {:induction false} QuietCount(s: State, es: seq<Event>, m: Msg)
    requires QuietRun(s, es, m) && ValidRun(s, es) && BelowLimit(s.workers, m)
    ensures var s' := Run(s, es);
      |s'.workers| == |s.workers| && BelowLimit(s'.workers, m)
      && Total(s'.workers, m) == Total(s.workers, m) + Failures(es, m)
    decreases |es|
  {
    if es != [] {
      QuietStep(s, es[0], m);
      QuietCount(Step(s, es[0]), es[1..], m);
    }
  }

  /**
   While a message has no success, no dead-letter attempt and no cleanup of its counters, at most
   workers * 4 attempts fail, whatever worker makes them and whichever workers crash and restart;
   once that many have failed, any further failure tries the dead-letter stream.
   */
  lemma FailuresBounded(s: State, es: seq<Event>, m: Msg, w: nat, o: Outcome)
    requires Total(s.workers, m) == 0 && BelowLimit(s.workers, m) && QuietRun(s, es, m)
    ensures Failures(es, m) <= |s.workers| * (MAX_RETRIES - 1)
    ensures ValidRun(s, es)
    ensures Failures(es, m) == |s.workers| * (MAX_RETRIES - 1) && Enabled(Run(s, es), Process(w, m, o)) && !o.Done?
      ==> TriesDlq(Run(s, es).workers[w].counts, m, o)
  {
    QuietRunIsRun(s, es, m);
    QuietCount(s, es, m);
    Pigeonhole(Run(s, es).workers, m);
  }

  // ----- the bound is reached -----

  /** One message, pending at some consumer, and no other. */
  function OnePending(m: Msg, ws: seq<Worker>, owner: nat): State {
    State({m}, {}, {}, map[m := owner], {}, ws, {}, {})
  }

  function Attempt(w: nat, m: Msg): seq<Event> {
    [Claim(w, [m]), Decode(w), Fetched(w), Process(w, m, Raised(0.0, false)), AckBatch(w, {})]
  }

  function Failed(counts: Counts, m: Msg): Worker {
    Idle().(counts := counts[m := (CountOf(counts, m) + 1, 0.0)])
  }

  lemma FetchSteps(m: Msg, ws: seq<Worker>, owner: nat, w: nat)
    requires w < |ws| && ws[w] == Idle().(counts := ws[w].counts)
    ensures var s0 := OnePending(m, ws, owner);
      var s1, s2 := OnePending(m, ws[w := ws[w].(raw := [m])], w), OnePending(m, ws[w := ws[w].(got := [m])], w);
      Enabled(s0, Claim(w, [m])) && Step(s0, Claim(w, [m])) == s1
      && Enabled(s1, Decode(w)) && Step(s1, Decode(w)) == s2
      && Enabled(s2, Fetched(w)) && Step(s2, Fetched(w)) == OnePending(m, ws[w := ws[w].(inbox := [m])], w)
  {
    assert [m][1..] == [] && ws[w].got + [m] == [m] && ws[w].inbox + [m] == [m];
  }

  lemma OneStep(s: State, e: Event, m: Msg)
    requires Enabled(s, e) && Quiet(s, e, m)
    ensures QuietRun(s, [e], m) && ValidRun(s, [e]) && Run(s, [e]) == Step(s, e)
  {
    assert [e][1..] == [];
    assert Run(Step(s, e), []) == Step(s, e);
  }

  lemma FetchEffect(m: Msg, ws: seq<Worker>, owner: nat, w: nat)
    requires w < |ws| && ws[w] == Idle().(counts := ws[w].counts)
    ensures var es, s := Attempt(w, m)[..3], OnePending(m, ws, owner);
      QuietRun(s, es, m) && ValidRun(s, es)
      && Run(s, es) == OnePending(m, ws[w := ws[w].(inbox := [m])], w)
  {
    FetchSteps(m, ws, owner, w);
    var es, s0 := Attempt(w, m)[..3], OnePending(m, ws, owner);
    var s1 := Step(s0, es[0]);
    var s2 := Step(s1, es[1]);
    OneStep(s0, es[0], m);
    OneStep(s1, es[1], m);
    OneStep(s2, es[2], m);
    QuietAppend(s1, [es[1]], [es[2]], m);
    QuietAppend(s0, [es[0]], [es[1]] + [es[2]], m);
    assert es == [es[0]] + ([es[1]] + [es[2]]);
  }

  lemma FailSteps(m: Msg, ws: seq<Worker>, w: nat, counts: Counts)
    requires w < |ws| && CountOf(counts, m) + 1 < MAX_RETRIES && ws[w] == Idle().(counts := counts, inbox := [m])
    ensures var s0, s1 := OnePending(m, ws, w), OnePending(m, ws[w := Failed(counts, m)], w);
      var fails := Process(w, m, Raised(0.0, false));
      Enabled(s0, fails) && Quiet(s0, fails, m) && Step(s0, fails) == s1
      && Enabled(s1, AckBatch(w, {})) && Step(s1, AckBatch(w, {})) == s1
  {
    assert [m][1..] == [] && !Acknowledges(counts, m, Raised(0.0, false)) && ws[w].acks + [] == [];
    var s1 := Step(OnePending(m, ws, w), Process(w, m, Raised(0.0, false)));
    assert s1.workers[w] == Failed(counts, m);
  }

  lemma {:induction false} QuietAppend(s: State, a: seq<Event>, b: seq<Event>, m: Msg)
    requires QuietRun(s, a, m) && ValidRun(s, a) && QuietRun(Run(s, a), b, m) && ValidRun(Run(s, a), b)
    ensures QuietRun(s, a + b, m) && ValidRun(s, a + b) && Run(s, a + b) == Run(Run(s, a), b)
    ensures Failures(a + b, m) == Failures(a, m) + Failures(b, m)
    decreases |a|
  {
    if a == [] {
      assert a + b == b;
    } else {
      assert (a + b)[1..] == a[1..] + b;
      QuietAppend(Step(s, a[0]), a[1..], b, m);
    }
  }

  lemma OneMore(m: Msg, ws: seq<Worker>, owner: nat, w: nat)
    requires w < |ws| && ws[w] == Idle().(counts := ws[w].counts) && CountOf(ws[w].counts, m) + 1 < MAX_RETRIES
    ensures var es, s := Attempt(w, m), OnePending(m, ws, owner);
      QuietRun(s, es, m) && ValidRun(s, es) && Run(s, es) == OnePending(m, ws[w := Failed(ws[w].counts, m)], w)
  {
    FetchEffect(m, ws, owner, w);
    var ws' := ws[w := ws[w].(inbox := [m])];
    FailSteps(m, ws', w, ws[w].counts);
    var es, s0 := Attempt(w, m)[3..], OnePending(m, ws', w);
    var s1 := Step(s0, es[0]);
    OneStep(s0, es[0], m);
    OneStep(s1, es[1], m);
    QuietAppend(s0, [es[0]], [es[1]], m);
    assert es == [es[0]] + [es[1]];
    QuietAppend(OnePending(m, ws, owner), Attempt(w, m)[..3], Attempt(w, m)[3..], m);
    assert Attempt(w, m) == Attempt(w, m)[..3] + Attempt(w, m)[3..];
    assert ws'[w := Failed(ws[w].counts, m)] == ws[w := Failed(ws[w].counts, m)];
  }

  /** As long as the total is below the bound, some worker can fail once more without trying the dead-letter stream. */
  lemma {:induction false} BoundIsReached(m: Msg, ws: seq<Worker>, owner: nat) returns (es: seq<Event>)
    requires BelowLimit(ws, m) && forall w :: 0 <= w < |ws| ==> ws[w] == Idle().(counts := ws[w].counts)
    ensures QuietRun(OnePending(m, ws, owner), es, m)
    ensures Total(ws, m) + Failures(es, m) == |ws| * (MAX_RETRIES - 1)
    decreases |ws| * (MAX_RETRIES - 1) - Total(ws, m)
  {
    Pigeonhole(ws, m);
    if w: nat :| w < |ws| && CountOf(ws[w].counts, m) < MAX_RETRIES - 1 {
      var ws' := ws[w := Failed(ws[w].counts, m)];
      TotalUpdate(ws, w, Failed(ws[w].counts, m), m);
      OneMore(m, ws, owner, w);
      Pigeonhole(ws', m);
      var rest := BoundIsReached(m, ws', w);
      QuietRunIsRun(OnePending(m, ws', w), rest, m);
      QuietAppend(OnePending(m, ws, owner), Attempt(w, m), rest, m);
      es := Attempt(w, m) + rest;
      QuietCount(OnePending(m, ws, owner), es, m);
      QuietCount(OnePending(m, ws', w), rest, m);
    } else {
      Full(ws, m);
      es := [];
    }
  }

  lemma {:induction false} Full(ws: seq<Worker>, m: Msg)
    requires forall w :: 0 <= w < |ws| ==> CountOf(ws[w].counts, m) == MAX_RETRIES - 1
    ensures Total(ws, m) == |ws| * (MAX_RETRIES - 1)
  {
    if ws != [] {
      assert forall w :: 0 <= w < |ws[1..]| ==> ws[1..][w] == ws[w + 1];
      Full(ws[1..], m);
    }
  }
}
