/** Many poll cycles of a chain, and why rows behind the 100-row limit are not starved. */
module FinalityDrain {
  import opened Wrappers
  import opened Finality
  import opened Tables
  import opened Arith
  import opened FinalityPoller

  /** A poll at this head or a later one brings up no final rows, whatever fails in it. */
  lemma PollKeeps(rows: Rows, chain: Chain, head: int, c: Cycle)
    requires IsBatch(rows, chain, c.batch) && head <= c.head
    ensures var rows' := AfterPoll(rows, Ids(c.batch), c.head, c.canonical, c.faults);
      FinalIds(rows', chain, head) <= FinalIds(rows, chain, head)
      && FinalPendingIds(rows', chain, head) <= FinalPendingIds(rows, chain, head)
  {}

  /** A poll without a failing update takes a step off each final row it reaches. */
  lemma PollShrinks(rows: Rows, chain: Chain, head: int, c: Cycle)
    requires IsBatch(rows, chain, c.batch) && head <= c.head && Clean(c)
    ensures var rows' := AfterPoll(rows, Ids(c.batch), c.head, c.canonical, c.faults);
      var reached := Ids(c.batch) * FinalIds(rows, chain, head);
      FinalIds(rows', chain, head) <= FinalIds(rows, chain, head) - (reached - FinalPendingIds(rows, chain, head))
      && FinalPendingIds(rows', chain, head) <= FinalPendingIds(rows, chain, head) - reached
  {}

  lemma Sizes(final: set<string>, pending: set<string>, reached: set<string>)
    requires pending <= final && reached <= final
    ensures |final - (reached - pending)| + |pending - reached| == |final| + |pending| - |reached|
  {
    var settled, started := reached - pending, reached * pending;
    assert reached == settled + started;
    assert final == (final - settled) + settled;
    assert pending == (pending - reached) + started;
  }

  /** So the work left falls by at least the number of rows reached; reorged rows count as settled. */
  lemma PollWorks(rows: Rows, chain: Chain, head: int, c: Cycle)
    requires IsBatch(rows, chain, c.batch) && head <= c.head && Clean(c)
    ensures Work(AfterPoll(rows, Ids(c.batch), c.head, c.canonical, c.faults), chain, head)
         <= Work(rows, chain, head) - Min(POLL_LIMIT, |FinalIds(rows, chain, head)|)
  {
    var rows' := AfterPoll(rows, Ids(c.batch), c.head, c.canonical, c.faults);
    var final, pending := FinalIds(rows, chain, head), FinalPendingIds(rows, chain, head);
    var reached := Ids(c.batch) * final;
    FinalFirst(rows, chain, head, c.batch);
    PollShrinks(rows, chain, head, c);
    Subset(FinalIds(rows', chain, head), final - (reached - pending));
    Subset(FinalPendingIds(rows', chain, head), pending - reached);
    Sizes(final, pending, reached);
  }

  // ----- many polls -----

  /** One cycle: the table it finds, the head and hashes it is given, the rows it fetches, and what fails. */
  datatype Cycle = Cycle(found: Rows, head: int, canonical: Canonical, batch: seq<string>, faults: Faults)

  /** No update of the cycle raises; a lost invalidation does not matter here. */
  predicate Clean(c: Cycle) {
    forall id :: id in c.faults ==> Sound(c.faults, id)
  }

  function CleanCycles(cycles: seq<Cycle>): nat {
    if cycles == [] then 0 else (if Clean(cycles[0]) then 1 else 0) + CleanCycles(cycles[1..])
  }

  /**
   Between two cycles the rest of the system inserts, promotes and expires rows as it likes, except that
   no row becomes open and final at `head` that was not so before with the same status.
   */
  predicate Drifts(rows: Rows, found: Rows, chain: Chain, head: int) {
    forall id :: id in FinalIds(found, chain, head) ==>
      id in FinalIds(rows, chain, head) && found[id].status == rows[id].status
  }

  predicate CycleOf(rows: Rows, c: Cycle, rows': Rows, chain: Chain, head: int) {
    c.head >= head && Drifts(rows, c.found, chain, head) && IsBatch(c.found, chain, c.batch)
    && rows' == AfterPoll(c.found, Ids(c.batch), c.head, c.canonical, c.faults)
  }

  /** Consecutive polls of a chain, at heads never below `head`. */
  predicate Polls(tables: seq<Rows>, cycles: seq<Cycle>, chain: Chain, head: int) {
    |tables| == |cycles| + 1
    && forall i :: 0 <= i < |cycles| ==> CycleOf(tables[i], cycles[i], tables[i + 1], chain, head)
  }

  /** Rows inserted or promoted at blocks not yet final at the head are such a drift. */
  lemma ShallowWritesDrift(rows: Rows, found: Rows, chain: Chain, head: int)
    requires forall id :: id in found ==>
      (id in rows && found[id] == rows[id]) || !Open(found[id]) || !DeepAt(found[id], head)
    ensures Drifts(rows, found, chain, head)
  {}

  /** Any cycle, with whatever fails in it, leaves no more to do than before. */
  lemma CycleKeeps(rows: Rows, c: Cycle, rows': Rows, chain: Chain, head: int)
    requires CycleOf(rows, c, rows', chain, head)
    ensures FinalIds(rows', chain, head) <= FinalIds(rows, chain, head)
    ensures FinalPendingIds(rows', chain, head) <= FinalPendingIds(rows, chain, head)
    ensures Work(rows', chain, head) <= Work(rows, chain, head)
    ensures |FinalIds(rows', chain, head)| <= |FinalIds(rows, chain, head)|
  {
    PollKeeps(c.found, chain, head, c);
    Subset(FinalIds(rows', chain, head), FinalIds(rows, chain, head));
    Subset(FinalPendingIds(rows', chain, head), FinalPendingIds(rows, chain, head));
  }

  lemma Later(tables: seq<Rows>, cycles: seq<Cycle>, chain: Chain, head: int)
    requires Polls(tables, cycles, chain, head) && cycles != []
    ensures CycleOf(tables[0], cycles[0], tables[1], chain, head)
    ensures Polls(tables[1..], cycles[1..], chain, head)
  {
    forall i | 0 <= i < |cycles[1..]| ensures CycleOf(tables[1..][i], cycles[1..][i], tables[1..][i + 1], chain, head) {
      assert CycleOf(tables[i + 1], cycles[i + 1], tables[i + 2], chain, head);
    }
  }

  /** At most 100 final rows are left: two clean cycles settle them, or one if none of them is pending. */
  lemma {:induction false} LastCycles(tables: seq<Rows>, cycles: seq<Cycle>, chain: Chain, head: int)
    requires Polls(tables, cycles, chain, head) && |FinalIds(tables[0], chain, head)| <= POLL_LIMIT
    requires FinalIds(tables[0], chain, head) == {} || CleanCycles(cycles) >= 2
      || (FinalPendingIds(tables[0], chain, head) == {} && CleanCycles(cycles) >= 1)
    ensures FinalIds(tables[|cycles|], chain, head) == {}
    decreases |cycles|
  {
    if cycles != [] {
      Later(tables, cycles, chain, head);
      CycleKeeps(tables[0], cycles[0], tables[1], chain, head);
      if Clean(cycles[0]) {
        var found := cycles[0].found;
        PollShrinks(found, chain, head, cycles[0]);
        Subset(FinalIds(found, chain, head), FinalIds(tables[0], chain, head));
        UncrowdedReaches(found, chain, head, cycles[0]);
      }
      LastCycles(tables[1..], cycles[1..], chain, head);
    }
  }

  /**
   No starvation: every row that is final at `head` is settled (finalized, or marked reorged) once
   floor(Work / 100) + 2 cycles have gone by without a failing update, at that head or later ones. In
   between any number of cycles may fail in any of their updates, and the rest of the system goes on.
   */
  lemma {:induction false} Drained(tables: seq<Rows>, cycles: seq<Cycle>, chain: Chain, head: int)
    requires Polls(tables, cycles, chain, head)
    requires CleanCycles(cycles) >= Work(tables[0], chain, head) / POLL_LIMIT + 2
    ensures FinalIds(tables[|cycles|], chain, head) == {}
    decreases |cycles|
  {
    if |FinalIds(tables[0], chain, head)| <= POLL_LIMIT {
      LastCycles(tables, cycles, chain, head);
    } else {
      Later(tables, cycles, chain, head);
      CycleKeeps(tables[0], cycles[0], tables[1], chain, head);
      if Clean(cycles[0]) {
        var found := cycles[0].found;
        PollWorks(found, chain, head, cycles[0]);
        Subset(FinalIds(found, chain, head), FinalIds(tables[0], chain, head));
        Subset(FinalPendingIds(found, chain, head), FinalPendingIds(tables[0], chain, head));
        Subset(FinalPendingIds(found, chain, head), FinalIds(found, chain, head));
      }
      Drained(tables[1..], cycles[1..], chain, head);
    }
  }

  // ----- rows that arrive already final -----

  /** The steps that rows open and final at `head` bring with them when they appear between two cycles. */
  function ArrivalWork(rows: Rows, found: Rows, chain: Chain, head: int): nat {
    |FinalIds(found, chain, head) - FinalIds(rows, chain, head)|
    + |FinalPendingIds(found, chain, head) - FinalPendingIds(rows, chain, head)|
  }

  /** The rest of the system does as it likes, but never turns a row back to pending; no call of it does. */
  predicate StepsForward(rows: Rows, found: Rows, chain: Chain, head: int) {
    forall id :: id in FinalPendingIds(found, chain, head) && id in FinalIds(rows, chain, head) ==>
      rows[id].status == Pending
  }

  predicate BusyCycle(rows: Rows, c: Cycle, rows': Rows, chain: Chain, head: int) {
    c.head >= head && StepsForward(rows, c.found, chain, head) && IsBatch(c.found, chain, c.batch)
    && rows' == AfterPoll(c.found, Ids(c.batch), c.head, c.canonical, c.faults)
  }

  /** Consecutive polls of a chain while rows of any kind arrive in between. */
  predicate BusyPolls(tables: seq<Rows>, cycles: seq<Cycle>, chain: Chain, head: int) {
    |tables| == |cycles| + 1
    && forall i :: 0 <= i < |cycles| ==> BusyCycle(tables[i], cycles[i], tables[i + 1], chain, head)
  }

  function Arrivals(tables: seq<Rows>, cycles: seq<Cycle>, chain: Chain, head: int): nat
    requires |tables| == |cycles| + 1
  {
    if cycles == [] then 0
    else ArrivalWork(tables[0], cycles[0].found, chain, head) + Arrivals(tables[1..], cycles[1..], chain, head)
  }

  /** A cycle without a failing update that finds more final rows than it fetches. */
  predicate Crowded(c: Cycle, chain: Chain, head: int) {
    Clean(c) && |FinalIds(c.found, chain, head)| > POLL_LIMIT
  }

  function CrowdedCycles(cycles: seq<Cycle>, chain: Chain, head: int): nat {
    if cycles == [] then 0
    else (if Crowded(cycles[0], chain, head) then 1 else 0) + CrowdedCycles(cycles[1..], chain, head)
  }

  /** More rows than before are at most the new ones. */
  lemma Growth(old_: set<string>, new_: set<string>)
    ensures |new_| <= |old_| + |new_ - old_|
  {
    Subset(new_, old_ + (new_ - old_));
  }

  /** Quiet polls are busy ones in which nothing arrives. */
  lemma DriftIsForward(rows: Rows, found: Rows, chain: Chain, head: int)
    requires Drifts(rows, found, chain, head)
    ensures StepsForward(rows, found, chain, head) && ArrivalWork(rows, found, chain, head) == 0
  {
    assert FinalIds(found, chain, head) - FinalIds(rows, chain, head) == {};
    assert FinalPendingIds(found, chain, head) - FinalPendingIds(rows, chain, head) == {};
  }

  lemma BusyWorks(rows: Rows, c: Cycle, rows': Rows, chain: Chain, head: int)
    requires BusyCycle(rows, c, rows', chain, head)
    ensures Work(rows', chain, head) + (if Crowded(c, chain, head) then POLL_LIMIT else 0)
      <= Work(rows, chain, head) + ArrivalWork(rows, c.found, chain, head)
  {
    Growth(FinalIds(rows, chain, head), FinalIds(c.found, chain, head));
    Growth(FinalPendingIds(rows, chain, head), FinalPendingIds(c.found, chain, head));
    if Crowded(c, chain, head) {
      PollWorks(c.found, chain, head, c);
    } else {
      PollKeeps(c.found, chain, head, c);
      Subset(FinalIds(rows', chain, head), FinalIds(c.found, chain, head));
      Subset(FinalPendingIds(rows', chain, head), FinalPendingIds(c.found, chain, head));
    }
  }

  lemma BusyLater(tables: seq<Rows>, cycles: seq<Cycle>, chain: Chain, head: int)
    requires BusyPolls(tables, cycles, chain, head) && cycles != []
    ensures BusyCycle(tables[0], cycles[0], tables[1], chain, head)
    ensures BusyPolls(tables[1..], cycles[1..], chain, head)
  {
    forall i | 0 <= i < |cycles[1..]|
      ensures BusyCycle(tables[1..][i], cycles[1..][i], tables[1..][i + 1], chain, head)
    {
      assert BusyCycle(tables[i + 1], cycles[i + 1], tables[i + 2], chain, head);
    }
  }

  /** Only so many cycles can be crowded: each takes 100 steps off what there is and what arrives. */
  lemma {:induction false} CrowdedBound(tables: seq<Rows>, cycles: seq<Cycle>, chain: Chain, head: int)
    requires BusyPolls(tables, cycles, chain, head)
    ensures POLL_LIMIT * CrowdedCycles(cycles, chain, head)
      <= Work(tables[0], chain, head) + Arrivals(tables, cycles, chain, head)
    decreases |cycles|
  {
    if cycles != [] {
      BusyLater(tables, cycles, chain, head);
      BusyWorks(tables[0], cycles[0], tables[1], chain, head);
      CrowdedBound(tables[1..], cycles[1..], chain, head);
    }
  }

  /** A row that stays open and final through a cycle never goes back to pending, and a cycle that is clean
      and not crowded moves it. */
  lemma LingeringRow(rows: Rows, c: Cycle, rows': Rows, chain: Chain, head: int, id: string)
    requires BusyCycle(rows, c, rows', chain, head) && id in FinalIds(rows, chain, head)
    requires id in FinalIds(rows', chain, head)
    ensures rows[id].status != Pending ==> rows'[id].status != Pending
    ensures Clean(c) && !Crowded(c, chain, head) ==> rows[id].status == Pending && rows'[id].status != Pending
  {
    PollKeeps(c.found, chain, head, c);
    if rows'[id].status == Pending {
      assert id in FinalPendingIds(rows', chain, head);
    }
    if Clean(c) && !Crowded(c, chain, head) {
      UncrowdedReaches(c.found, chain, head, c);
      PollShrinks(c.found, chain, head, c);
      assert id in FinalPendingIds(c.found, chain, head);
    }
  }

  lemma UncrowdedReaches(rows: Rows, chain: Chain, head: int, c: Cycle)
    requires IsBatch(rows, chain, c.batch) && |FinalIds(rows, chain, head)| <= POLL_LIMIT
    ensures FinalIds(rows, chain, head) <= Ids(c.batch)
  {
    FinalFirst(rows, chain, head, c.batch);
    var final := FinalIds(rows, chain, head);
    if !(final <= Ids(c.batch)) {
      var left :| left in final && left !in Ids(c.batch);
      assert Ids(c.batch) * final == Ids(c.batch);
      ProperSubset(Ids(c.batch), final, left);
    }
  }

  /** A row that is never settled sees no clean cycle that is not crowded, or one if it starts pending. */
  lemma {:induction false} LingersBriefly(tables: seq<Rows>, cycles: seq<Cycle>, chain: Chain, head: int, id: string)
    requires BusyPolls(tables, cycles, chain, head)
    requires forall i :: 0 <= i < |tables| ==> id in FinalIds(tables[i], chain, head)
    ensures CleanCycles(cycles)
      <= CrowdedCycles(cycles, chain, head) + (if id in FinalPendingIds(tables[0], chain, head) then 1 else 0)
    decreases |cycles|
  {
    if cycles != [] {
      BusyLater(tables, cycles, chain, head);
      LingeringRow(tables[0], cycles[0], tables[1], chain, head, id);
      LingersBriefly(tables[1..], cycles[1..], chain, head, id);
    }
  }

  /**
   No starvation by newcomers either: whatever arrives between the cycles, also rows already final and at
   lower blocks, each row that was final at the start is settled at some time within
   floor((Work + Arrivals) / 100) + 2 clean cycles.
   */
  lemma SettledDespiteArrivals(tables: seq<Rows>, cycles: seq<Cycle>, chain: Chain, head: int, id: string)
    requires BusyPolls(tables, cycles, chain, head)
    ensures Enough(tables, cycles, chain, head) ==>
      exists i :: 0 <= i < |tables| && id !in FinalIds(tables[i], chain, head)
  {
    if forall i :: 0 <= i < |tables| ==> id in FinalIds(tables[i], chain, head) {
      CrowdedBound(tables, cycles, chain, head);
      LingersBriefly(tables, cycles, chain, head, id);
    }
  }

  predicate Enough(tables: seq<Rows>, cycles: seq<Cycle>, chain: Chain, head: int)
    requires |tables| == |cycles| + 1
  {
    CleanCycles(cycles) >= (Work(tables[0], chain, head) + Arrivals(tables, cycles, chain, head)) / POLL_LIMIT + 2
  }
}
