/** Which worker consumes which stream: the round-robin start and the least-loaded discoveries after it. */
module WorkerPool {
  import opened Seqs
  import opened Text
  import opened Arith
  import opened EventBus

  const MAX_STREAMS_PER_WORKER := 100
  const DEFAULT_STREAM := "tripwire:events:default"

  type Lists = seq<seq<string>>

  datatype Pool = Pool(lists: Lists, known: set<string>)

  predicate Distinct(keys: seq<string>) {
    forall i, j :: 0 <= i < j < |keys| ==> keys[i] != keys[j]
  }

  // ----- start -----

  function Capped(found: seq<string>): (r: seq<string>)
    ensures 0 < |r| <= MAX_STREAMS
    ensures Distinct(found) ==> Distinct(r)
  {
    if found == [] then [DEFAULT_STREAM]
    else if |found| > MAX_STREAMS then found[..MAX_STREAMS]
    else found
  }

  function Assign(lists: Lists, w: nat, key: string): Lists
    requires w < |lists|
  {
    lists[w := lists[w] + [key]]
  }

  /** Whose turn it is after k keys. */
  function Turn(k: nat, workers: nat): (w: nat)
    requires workers > 0
    ensures w < workers
  {
    if k == 0 || Turn(k - 1, workers) + 1 == workers then 0 else Turn(k - 1, workers) + 1
  }

  function RoundRobin(keys: seq<string>, workers: nat, k: nat): (r: Lists)
    requires workers > 0 && k <= |keys|
    ensures |r| == workers
  {
    if k == 0 then seq(workers, _ => [])
    else Assign(RoundRobin(keys, workers, k - 1), Turn(k - 1, workers), keys[k - 1])
  }

  function Started(found: seq<string>, workers: nat): Pool
    requires workers > 0
  {
    var keys := Capped(found);
    Pool(RoundRobin(keys, workers, |keys|), set k | k in keys)
  }

  // ----- discovery -----

  /** The first worker with the fewest streams. */
  function LeastLoaded(lists: Lists): (w: nat)
    requires |lists| > 0
    ensures w < |lists|
    ensures forall v :: 0 <= v < |lists| ==> |lists[w]| <= |lists[v]|
    ensures forall v :: 0 <= v < w ==> |lists[w]| < |lists[v]|
  {
    if |lists| == 1 then 0
    else
      var w := LeastLoaded(lists[..|lists| - 1]);
      if |lists[|lists| - 1]| < |lists[w]| then |lists| - 1 else w
  }

  function Added(lists: Lists, key: string): (r: Lists)
    requires |lists| > 0
    ensures |r| == |lists|
  {
    var w := LeastLoaded(lists);
    if |lists[w]| >= MAX_STREAMS_PER_WORKER then lists else Assign(lists, w, key)
  }

  /** A stream refused by every worker is known all the same. */
  function Discovered(p: Pool, arrivals: seq<string>): (r: Pool)
    requires |p.lists| > 0
    ensures |r.lists| == |p.lists|
    decreases |arrivals|
  {
    if arrivals == [] || |p.known| >= MAX_STREAMS then p
    else Discovered(Pool(Added(p.lists, arrivals[0]), p.known + {arrivals[0]}), arrivals[1..])
  }

  /** One discovery round over the sorted streams of a scan. */
  function Round(p: Pool, scan: seq<string>): (r: Pool)
    requires |p.lists| > 0
    ensures |r.lists| == |p.lists|
  {
    Discovered(p, Filter((k: string) => k !in p.known, scan))
  }

  function Rounds(p: Pool, scans: seq<seq<string>>): (r: Pool)
    requires |p.lists| > 0
    ensures |r.lists| == |p.lists|
    decreases |scans|
  {
    if scans == [] then p else Rounds(Round(p, scans[0]), scans[1..])
  }

  class TriggerWorkerPool {
    const numWorkers: nat
    var streamKeys: Lists
    var knownStreams: set<string>

    ghost predicate Valid() reads this {
      |streamKeys| == numWorkers > 0
    }

    ghost function Model(): Pool reads this {
      Pool(streamKeys, knownStreams)
    }

    constructor (numWorkers: nat, found: seq<string>)
      requires numWorkers > 0
      ensures Valid() && Model() == Started(found, numWorkers)
    {
      this.numWorkers := numWorkers;
      var streamList := found;
      if streamList == [] {
        streamList := [DEFAULT_STREAM];
      }
      if |streamList| > MAX_STREAMS {
        streamList := streamList[..MAX_STREAMS];
      }
      var partitions: Lists := seq(numWorkers, _ => []);
      for i := 0 to |streamList|
        invariant |partitions| == numWorkers && partitions == RoundRobin(streamList, numWorkers, i)
      {
        var q := TurnIsRemainder(i, numWorkers);
        partitions := Assign(partitions, i % numWorkers, streamList[i]);
      }
      streamKeys, knownStreams := partitions, set k | k in streamList;
    }

    method AddStream(key: string)
      requires Valid()
      modifies this`streamKeys
      ensures Valid() && streamKeys == Added(old(streamKeys), key)
    {
      var least := 0;
      for w := 1 to |streamKeys|
        invariant least == LeastLoaded(streamKeys[..w])
      {
        assert streamKeys[..w + 1][..w] == streamKeys[..w];
        if |streamKeys[w]| < |streamKeys[least]| {
          least := w;
        }
      }
      assert streamKeys[..|streamKeys|] == streamKeys;
      if |streamKeys[least]| < MAX_STREAMS_PER_WORKER {
        streamKeys := Assign(streamKeys, least, key);
      }
    }

    method DiscoverStreams(scan: seq<string>)
      requires Valid()
      modifies this
      ensures Valid() && Model() == Round(old(Model()), scan)
    {
      ghost var all := Model();
      var known := knownStreams;
      var arrivals := Filter((k: string) => k !in known, scan);
      for i := 0 to |arrivals|
        invariant Valid() && Discovered(Model(), arrivals[i..]) == Discovered(all, arrivals)
      {
        if |knownStreams| >= MAX_STREAMS {
          return;
        }
        AddStream(arrivals[i]);
        knownStreams := knownStreams + {arrivals[i]};
      }
    }
  }

  // ----- ownership -----

  /** Every assignment of a stream to a worker, counted as often as it occurs. */
  function Assigned(lists: Lists): multiset<string> {
    if lists == [] then multiset{} else Assigned(lists[..|lists| - 1]) + multiset(lists[|lists| - 1])
  }

  function Owned(lists: Lists): set<string> {
    set k | k in Assigned(lists)
  }

  /** No stream is assigned twice, neither to two workers nor to one. */
  predicate Exclusive(lists: Lists) {
    Assigned(lists) == multiset(Owned(lists))
  }

  predicate Balanced(lists: Lists) {
    forall v, w :: 0 <= v < |lists| && 0 <= w < |lists| ==> |lists[v]| <= |lists[w]| + 1
  }

  /** How many of the known streams have an owner, given how many there were at the start. */
  function OwnedCount(initial: nat, known: nat, workers: nat): nat {
    Max(initial, Min(known, workers * MAX_STREAMS_PER_WORKER))
  }

  predicate Inv(p: Pool, initial: nat) {
    Exclusive(p.lists) && Balanced(p.lists)
    && Owned(p.lists) <= p.known && initial <= |p.known| <= MAX_STREAMS
    && |Owned(p.lists)| == OwnedCount(initial, |p.known|, |p.lists|)
  }

  lemma {:induction false} AssignedAssign(lists: Lists, w: nat, key: string)
    requires w < |lists|
    ensures Assigned(Assign(lists, w, key)) == Assigned(lists) + multiset{key}
  {
    var front, after := lists[..|lists| - 1], Assign(lists, w, key);
    if w < |lists| - 1 {
      assert after[..|lists| - 1] == Assign(front, w, key);
      AssignedAssign(front, w, key);
    } else {
      assert after[..|lists| - 1] == front;
    }
  }

  /** Giving an unowned stream to one worker keeps ownership exclusive and adds exactly that stream. */
  lemma AssignOwns(lists: Lists, w: nat, key: string)
    requires w < |lists| && Exclusive(lists) && key !in Owned(lists)
    ensures var lists' := Assign(lists, w, key);
      Exclusive(lists') && Owned(lists') == Owned(lists) + {key} && |Owned(lists')| == |Owned(lists)| + 1
  {
    AssignedAssign(lists, w, key);
  }

  lemma {:induction false} AssignedTwice(lists: Lists, v: nat, w: nat, key: string)
    requires w < |lists| && v <= w
    ensures Assigned(lists)[key] >= (if v < w then multiset(lists[v])[key] else 0) + multiset(lists[w])[key]
  {
    if w < |lists| - 1 {
      AssignedTwice(lists[..|lists| - 1], v, w, key);
    } else if v < w {
      AssignedTwice(lists[..|lists| - 1], v, v, key);
    }
  }

  lemma RepeatCounted(s: seq<string>, i: nat, j: nat)
    requires i < j < |s| && s[i] == s[j]
    ensures multiset(s)[s[i]] >= 2
  {
    assert s == s[..j] + s[j..];
    assert s[..j][i] == s[i] && s[j..][0] == s[i];
  }

  /** Exclusive ownership, said of positions: one stream never stands at two places. */
  lemma OnePlace(lists: Lists, v: nat, i: nat, w: nat, j: nat)
    requires Exclusive(lists) && v <= w < |lists| && i < |lists[v]| && j < |lists[w]|
    requires lists[v][i] == lists[w][j]
    ensures v == w && i == j
  {
    AssignedTwice(lists, v, w, lists[v][i]);
    if v == w && i < j {
      RepeatCounted(lists[v], i, j);
    } else if v == w && j < i {
      RepeatCounted(lists[v], j, i);
    }
  }

  lemma {:induction false} Capacity(lists: Lists, limit: nat)
    requires limit == MAX_STREAMS_PER_WORKER
    ensures (forall v :: 0 <= v < |lists| ==> |lists[v]| >= limit) ==> |Assigned(lists)| >= |lists| * limit
    ensures (forall v :: 0 <= v < |lists| ==> |lists[v]| <= limit) ==> |Assigned(lists)| <= |lists| * limit
    ensures ((forall v :: 0 <= v < |lists| ==> |lists[v]| <= limit)
             && (exists v :: 0 <= v < |lists| && |lists[v]| < limit)) ==> |Assigned(lists)| < |lists| * limit
  {
    if lists != [] {
      var front, last := lists[..|lists| - 1], lists[|lists| - 1];
      Capacity(front, limit);
      assert |Assigned(lists)| == |Assigned(front)| + |last|;
      if v :| 0 <= v < |lists| && |lists[v]| < limit && v < |front| {
        assert |front[v]| < limit;
      }
    }
  }

  /** With balanced lists the least loaded worker is full exactly when all of them together are. */
  lemma FullIff(lists: Lists)
    requires lists != [] && Balanced(lists) && Exclusive(lists)
    ensures |lists[LeastLoaded(lists)]| >= MAX_STREAMS_PER_WORKER
      <==> |Owned(lists)| >= |lists| * MAX_STREAMS_PER_WORKER
  {
    Capacity(lists, MAX_STREAMS_PER_WORKER);
    assert |Assigned(lists)| == |Owned(lists)|;
  }

  lemma AddedInv(p: Pool, key: string, initial: nat)
    requires |p.lists| > 0 && Inv(p, initial) && key !in p.known && |p.known| < MAX_STREAMS
    ensures Inv(Pool(Added(p.lists, key), p.known + {key}), initial)
  {
    FullIff(p.lists);
    var w := LeastLoaded(p.lists);
    if |p.lists[w]| < MAX_STREAMS_PER_WORKER {
      AssignOwns(p.lists, w, key);
      assert Added(p.lists, key) == Assign(p.lists, w, key);
    } else {
      assert Added(p.lists, key) == p.lists;
    }
  }

  lemma {:induction false} FilterDistinct(p: string -> bool, keys: seq<string>)
    requires Distinct(keys)
    ensures Distinct(Filter(p, keys))
  {
    if keys != [] {
      var front := keys[..|keys| - 1];
      FilterDistinct(p, front);
      FilterMember(p, front, keys[|keys| - 1]);
    }
  }

  lemma {:induction false} DiscoveredInv(p: Pool, arrivals: seq<string>, initial: nat)
    requires |p.lists| > 0 && Inv(p, initial) && Distinct(arrivals) && forall k :: k in arrivals ==> k !in p.known
    ensures Inv(Discovered(p, arrivals), initial)
    decreases |arrivals|
  {
    if arrivals != [] && |p.known| < MAX_STREAMS {
      AddedInv(p, arrivals[0], initial);
      DiscoveredInv(Pool(Added(p.lists, arrivals[0]), p.known + {arrivals[0]}), arrivals[1..], initial);
    }
  }

  lemma {:induction false} RoundsInv(p: Pool, scans: seq<seq<string>>, initial: nat)
    requires |p.lists| > 0 && Inv(p, initial) && forall i :: 0 <= i < |scans| ==> Distinct(scans[i])
    ensures Inv(Rounds(p, scans), initial)
    decreases |scans|
  {
    if scans != [] {
      var isNew := (k: string) => k !in p.known;
      FilterDistinct(isNew, scans[0]);
      forall k | k in Filter(isNew, scans[0]) ensures k !in p.known {
        FilterMember(isNew, scans[0], k);
      }
      DiscoveredInv(p, Filter(isNew, scans[0]), initial);
      RoundsInv(Round(p, scans[0]), scans[1..], initial);
    }
  }

  // ----- the round-robin start -----

  /** The first r lists hold q + 1 streams and the others q. */
  predicate Dealt(lists: Lists, q: nat, r: nat) {
    r < |lists| && forall w :: 0 <= w < |lists| ==> |lists[w]| == if w < r then q + 1 else q
  }

  lemma {:induction false} RoundRobinDeals(keys: seq<string>, workers: nat, k: nat) returns (q: nat)
    requires workers > 0 && k <= |keys|
    ensures Dealt(RoundRobin(keys, workers, k), q, Turn(k, workers)) && k == q * workers + Turn(k, workers)
  {
    if k == 0 {
      q := 0;
    } else {
      q := RoundRobinDeals(keys, workers, k - 1);
      assert (q + 1) * workers == q * workers + workers;
      q := if Turn(k, workers) == 0 then q + 1 else q;
    }
  }

  /** The turn is the index modulo the number of workers. */
  lemma {:induction false} TurnIsRemainder(k: nat, workers: nat) returns (q: nat)
    requires workers > 0
    ensures k == q * workers + Turn(k, workers) && k % workers == Turn(k, workers)
  {
    if k == 0 {
      q := 0;
    } else {
      q := TurnIsRemainder(k - 1, workers);
      assert (q + 1) * workers == q * workers + workers;
      q := if Turn(k, workers) == 0 then q + 1 else q;
    }
    DivMod(k, q, workers, Turn(k, workers));
  }

  lemma {:induction false} EmptyAssigned(lists: Lists)
    requires forall w :: 0 <= w < |lists| ==> lists[w] == []
    ensures Assigned(lists) == multiset{}
  {
    if lists != [] {
      EmptyAssigned(lists[..|lists| - 1]);
    }
  }

  predicate Deals(lists: Lists, dealt: seq<string>) {
    Assigned(lists) == multiset(dealt)
  }

  /** Round-robin hands out each key as often as it is listed. */
  lemma {:induction false} RoundRobinAssigns(keys: seq<string>, workers: nat, k: nat)
    requires workers > 0 && k <= |keys|
    ensures Deals(RoundRobin(keys, workers, k), keys[..k])
  {
    if k == 0 {
      EmptyAssigned(seq(workers, _ => []));
      assert keys[..0] == [];
    } else {
      RoundRobinAssigns(keys, workers, k - 1);
      AssignedAssign(RoundRobin(keys, workers, k - 1), Turn(k - 1, workers), keys[k - 1]);
      assert keys[..k] == keys[..k - 1] + [keys[k - 1]];
    }
  }

  lemma {:induction false} DistinctAsSet(keys: seq<string>)
    requires Distinct(keys)
    ensures multiset(keys) == multiset(set k | k in keys) && |set k | k in keys| == |keys|
  {
    if keys != [] {
      var front, last := keys[..|keys| - 1], keys[|keys| - 1];
      DistinctAsSet(front);
      assert keys == front + [last];
      assert (set k | k in keys) == (set k | k in front) + {last};
    }
  }

  lemma StartedInv(found: seq<string>, workers: nat)
    requires workers > 0 && Distinct(found)
    ensures Inv(Started(found, workers), |Capped(found)|)
  {
    var keys := Capped(found);
    var q := RoundRobinDeals(keys, workers, |keys|);
    RoundRobinAssigns(keys, workers, |keys|);
    assert keys[..|keys|] == keys;
    DistinctAsSet(keys);
    assert Owned(Started(found, workers).lists) == set k | k in keys;
  }

  /** The start takes the first 500 streams found, or the default one if there are none. */
  lemma CappedLaw(found: seq<string>)
    ensures found == [] ==> Capped(found) == ["tripwire:events:default"]
    ensures found != [] ==> |Capped(found)| == Min(|found|, 500) && Capped(found) <= found
  {}

  lemma {:induction false} ListsOnlyGrow(keys: seq<string>, workers: nat, k: nat, n: nat, w: nat)
    requires workers > 0 && k <= n <= |keys| && w < workers
    ensures RoundRobin(keys, workers, k)[w] <= RoundRobin(keys, workers, n)[w]
    decreases n
  {
    if k < n {
      ListsOnlyGrow(keys, workers, k, n - 1, w);
    }
  }

  /** The i-th stream is the (i / workers)-th of worker i % workers. */
  lemma RoundRobinPlaces(keys: seq<string>, workers: nat, i: nat)
    requires workers > 0 && i < |keys|
    ensures var mine := RoundRobin(keys, workers, |keys|)[i % workers];
      i / workers < |mine| && mine[i / workers] == keys[i]
  {
    var q := RoundRobinDeals(keys, workers, i);
    DivMod(i, q, workers, Turn(i, workers));
    ListsOnlyGrow(keys, workers, i + 1, |keys|, Turn(i, workers));
  }

  function Members(keys: seq<string>): set<string> {
    set k | k in keys
  }

  lemma TakeOne(keys: seq<string>, taken: nat)
    requires taken < |keys|
    ensures Members(keys[..taken + 1]) == {keys[0]} + Members(keys[1..][..taken])
  {
    assert keys[..taken + 1] == [keys[0]] + keys[1..][..taken];
  }

  /** Streams that discovery has yet to know, each once. */
  predicate AreNew(p: Pool, arrivals: seq<string>) {
    Distinct(arrivals) && forall k :: k in arrivals ==> k !in p.known
  }

  function AfterFirst(p: Pool, arrivals: seq<string>): Pool
    requires |p.lists| > 0 && arrivals != []
  {
    Pool(Added(p.lists, arrivals[0]), p.known + {arrivals[0]})
  }

  lemma NoArrival(p: Pool, arrivals: seq<string>)
    requires |p.lists| > 0 && (arrivals == [] || |p.known| >= 500)
    ensures Discovered(p, arrivals) == p && Members(arrivals[..0]) == {}
  {}

  /** Discovery knows afterwards the arrivals in order until 500 streams are known, owned or not. */
  lemma {:induction false} KnownExactly(p: Pool, arrivals: seq<string>, taken: nat)
    requires |p.lists| > 0 && AreNew(p, arrivals) && |p.known| <= 500
    requires taken == Min(|arrivals|, 500 - |p.known|)
    ensures Discovered(p, arrivals).known == p.known + Members(arrivals[..taken])
    decreases taken
  {
    if taken == 0 {
      NoArrival(p, arrivals);
    } else {
      var next := AfterFirst(p, arrivals);
      KnownExactly(next, arrivals[1..], taken - 1);
      TakeOne(arrivals, taken - 1);
      assert next.known == p.known + {arrivals[0]};
    }
  }

  // ----- main results -----

  /**
   After any start and any sequence of discoveries: no stream has two places, the lists are within one
   of each other in length, and the number of owned streams is known exactly.
   */
  lemma Reachable(found: seq<string>, workers: nat, scans: seq<seq<string>>)
    requires workers > 0 && Distinct(found) && forall i :: 0 <= i < |scans| ==> Distinct(scans[i])
    ensures Inv(Rounds(Started(found, workers), scans), |Capped(found)|)
  {
    StartedInv(found, workers);
    RoundsInv(Started(found, workers), scans, |Capped(found)|);
  }

  lemma OwnedIff(p: Pool, initial: nat)
    requires Inv(p, initial)
    ensures Owned(p.lists) == p.known <==> |p.known| <= Max(initial, |p.lists| * MAX_STREAMS_PER_WORKER)
    ensures |p.lists| * MAX_STREAMS_PER_WORKER >= MAX_STREAMS ==> Owned(p.lists) == p.known
  {
    if |Owned(p.lists)| == |p.known| {
      assert p.known == Owned(p.lists) + (p.known - Owned(p.lists));
    }
  }

  /** Every known stream has an owner exactly while the known ones fit what the start or the workers can hold. */
  lemma EveryStreamOwnedIff(found: seq<string>, workers: nat, scans: seq<seq<string>>, p: Pool)
    requires workers > 0 && Distinct(found) && forall i :: 0 <= i < |scans| ==> Distinct(scans[i])
    requires p == Rounds(Started(found, workers), scans)
    ensures Owned(p.lists) == p.known <==> |p.known| <= Max(|Capped(found)|, |p.lists| * MAX_STREAMS_PER_WORKER)
    ensures |p.lists| == workers
    ensures workers * MAX_STREAMS_PER_WORKER >= MAX_STREAMS ==> Owned(p.lists) == p.known
  {
    Reachable(found, workers, scans);
    OwnedIff(p, |Capped(found)|);
  }

  // ----- when streams go unowned -----

  lemma {:induction false} DiscoveredKnows(p: Pool, arrivals: seq<string>)
    requires |p.lists| > 0 && Distinct(arrivals) && |p.known| <= MAX_STREAMS
    requires forall k :: k in arrivals ==> k !in p.known
    ensures |Discovered(p, arrivals).known| == Min(MAX_STREAMS, |p.known| + |arrivals|)
    decreases |arrivals|
  {
    if arrivals != [] && |p.known| < MAX_STREAMS {
      DiscoveredKnows(Pool(Added(p.lists, arrivals[0]), p.known + {arrivals[0]}), arrivals[1..]);
    }
  }

  /** As many streams as there are numbers below n. */
  function Numbered(n: nat): (keys: seq<string>)
    ensures |keys| == n
  {
    seq(n, (i: nat) => Decimal(i))
  }

  lemma NumberedDistinct(n: nat)
    ensures Distinct(Numbered(n))
    ensures DEFAULT_STREAM !in Numbered(n)
  {
    forall i, j | 0 <= i < j < n ensures Numbered(n)[i] != Numbered(n)[j] {
      if Numbered(n)[i] == Numbered(n)[j] {
        DecimalInjective(i, j);
      }
    }
    forall i | 0 <= i < n ensures Numbered(n)[i] != DEFAULT_STREAM {
      DecimalFree(i, 't');
      assert DEFAULT_STREAM[0] == 't';
    }
  }

  lemma EmptyStart(workers: nat)
    requires workers > 0
    ensures Started([], workers).known == {DEFAULT_STREAM} && Capped([]) == [DEFAULT_STREAM]
  {}

  predicate AllDistinct(found: seq<string>, scans: seq<seq<string>>) {
    Distinct(found) && forall i :: 0 <= i < |scans| ==> Distinct(scans[i])
  }

  predicate EveryStreamOwned(found: seq<string>, workers: nat, scans: seq<seq<string>>)
    requires workers > 0
  {
    Owned(Rounds(Started(found, workers), scans).lists) == Rounds(Started(found, workers), scans).known
  }

  /** One round after an empty start leaves a stream unowned exactly when it finds more than the workers hold. */
  lemma OneRoundOwnedIff(workers: nat, n: nat)
    requires workers > 0
    ensures AllDistinct([], [Numbered(n)])
    ensures EveryStreamOwned([], workers, [Numbered(n)])
      <==> Min(MAX_STREAMS, n + 1) <= workers * MAX_STREAMS_PER_WORKER
  {
    NumberedDistinct(n);
    EmptyStart(workers);
    var p := Started([], workers);
    FilterAll((k: string) => k !in p.known, Numbered(n));
    DiscoveredKnows(p, Numbered(n));
    assert [Numbered(n)][1..] == [];
    assert Rounds(Round(p, Numbered(n)), []) == Round(p, Numbered(n));
    EveryStreamOwnedIff([], workers, [Numbered(n)], Round(p, Numbered(n)));
  }

  /** Every known stream has an owner in all reachable states exactly when the workers can hold the cap. */
  lemma AlwaysOwnedIff(workers: nat)
    requires workers > 0
    ensures (forall found, scans :: AllDistinct(found, scans) ==> EveryStreamOwned(found, workers, scans))
      <==> workers * 100 >= 500
  {
    if workers * MAX_STREAMS_PER_WORKER >= MAX_STREAMS {
      forall found, scans | AllDistinct(found, scans) ensures EveryStreamOwned(found, workers, scans) {
        EveryStreamOwnedIff(found, workers, scans, Rounds(Started(found, workers), scans));
      }
    } else {
      OneRoundOwnedIff(workers, MAX_STREAMS);
    }
  }
}
