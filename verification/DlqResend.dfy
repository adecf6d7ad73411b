/** Resending failed deliveries a limited number of times, counted in the local delivery table. */
module DlqResend {
  /** A delivery the provider reports as failed, and how the table calls for it end. */
  datatype Failed = Failed(uid: string, lookupRaises: bool, incrementRaises: bool, applied: bool, markRaises: bool)

  type Counts = map<string, int>    // retry counts by delivery id; no entry, no local record

  /** `marked` are the local records set to dead_lettered, `dead` the alerts in order. */
  datatype Poll = Poll(counts: Counts, marked: set<string>, resend: seq<string>, dead: seq<string>, raised: bool)

  function CountOf(counts: Counts, uid: string): int {
    if uid in counts then counts[uid] else 0
  }

  function Incremented(counts: Counts, uid: string): Counts {
    if uid in counts then counts[uid := counts[uid] + 1] else counts
  }

  /** The alert goes out whether or not the record is found and marked. */
  function Marked(counts: Counts, marked: set<string>, f: Failed): set<string> {
    if f.uid in counts && !f.markRaises then marked + {f.uid} else marked
  }

  /** One delivery of the list; after an exception the rest of the list is not looked at. */
  function StepDelivery(p: Poll, f: Failed, max: int): Poll {
    if p.raised || f.uid == "" then p
    else if f.lookupRaises then p.(raised := true)
    else if CountOf(p.counts, f.uid) >= max then
      p.(dead := p.dead + [f.uid], marked := Marked(p.counts, p.marked, f))
    else if f.uid in p.counts && f.incrementRaises then
      p.(counts := if f.applied then Incremented(p.counts, f.uid) else p.counts, raised := true)
    else p.(counts := Incremented(p.counts, f.uid), resend := p.resend + [f.uid])
  }

  function PollUpTo(counts: Counts, failed: seq<Failed>, max: int, k: nat): Poll
    requires k <= |failed|
  {
    if k == 0 then Poll(counts, {}, [], [], false)
    else StepDelivery(PollUpTo(counts, failed, max, k - 1), failed[k - 1], max)
  }

  function PollAll(counts: Counts, failed: seq<Failed>, max: int): Poll {
    PollUpTo(counts, failed, max, |failed|)
  }

  /** The batch that is sent; an exception in the loop means that none is. */
  function Batch(p: Poll): seq<string> {
    if p.raised then [] else p.resend
  }

  class DLQHandler {
    var counts: Counts
    var deadLettered: set<string>

    /** Records a dead letter if it can; the alert is the caller's list. */
    method DeadLetter(f: Failed)
      modifies this`deadLettered
      ensures deadLettered == Marked(counts, old(deadLettered), f)
      ensures forall uid ::
        uid in deadLettered <==> uid in old(deadLettered) || (uid == f.uid && uid in counts && !f.markRaises)
    {
      if f.uid in counts && !f.markRaises {
        deadLettered := deadLettered + {f.uid};
      }
    }

    method ProcessEndpoint(failed: seq<Failed>, max: int) returns (batch: seq<string>, dead: seq<string>)
      modifies this
      ensures var p := PollAll(old(counts), failed, max);
        counts == p.counts && deadLettered == old(deadLettered) + p.marked && batch == Batch(p) && dead == p.dead
    {
      ghost var marked: set<string> := {};
      var retryable: seq<string> := [];
      dead := [];
      for i := 0 to |failed|
        invariant PollUpTo(old(counts), failed, max, i) == Poll(counts, marked, retryable, dead, false)
        invariant deadLettered == old(deadLettered) + marked
      {
        var f := failed[i];
        if f.uid == "" {
          continue;
        }
        if f.lookupRaises {
          RaisedStays(old(counts), failed, max, i + 1);
          return [], dead;
        }
        if CountOf(counts, f.uid) >= max {
          DeadLetter(f);
          marked := Marked(counts, marked, f);
          dead := dead + [f.uid];
        } else {
          if f.uid in counts && f.incrementRaises {
            counts := if f.applied then Incremented(counts, f.uid) else counts;
            RaisedStays(old(counts), failed, max, i + 1);
            return [], dead;
          }
          retryable := retryable + [f.uid];
          counts := Incremented(counts, f.uid);
        }
      }
      batch := retryable;
    }
  }

  lemma {:induction false} RaisedStays(counts: Counts, failed: seq<Failed>, max: int, k: nat)
    requires k <= |failed| && PollUpTo(counts, failed, max, k).raised
    ensures PollAll(counts, failed, max) == PollUpTo(counts, failed, max, k)
    decreases |failed| - k
  {
    if k < |failed| {
      RaisedStays(counts, failed, max, k + 1);
    }
  }

  // ----- over any number of polls -----

  function Times(uids: seq<string>, uid: string): nat {
    multiset(uids)[uid]
  }

  function CountsAfter(counts: Counts, polls: seq<seq<Failed>>, max: int): Counts {
    if polls == [] then counts
    else PollAll(CountsAfter(counts, polls[..|polls| - 1], max), polls[|polls| - 1], max).counts
  }

  /** How often a delivery was put in a batch that was sent. */
  function Resends(counts: Counts, polls: seq<seq<Failed>>, max: int, uid: string): nat {
    if polls == [] then 0
    else
      var front := polls[..|polls| - 1];
      var p := PollAll(CountsAfter(counts, front, max), polls[|polls| - 1], max);
      Resends(counts, front, max, uid) + Times(Batch(p), uid)
  }

  lemma {:induction false} PollCounts(counts: Counts, failed: seq<Failed>, max: int, uid: string, k: nat)
    requires k <= |failed| && uid in counts && counts[uid] <= max
    ensures var p := PollUpTo(counts, failed, max, k);
      uid in p.counts && counts[uid] + Times(p.resend, uid) <= p.counts[uid] <= max
      && (!p.raised ==> counts[uid] + Times(p.resend, uid) == p.counts[uid])
  {
    if k > 0 {
      PollCounts(counts, failed, max, uid, k - 1);
    }
  }

  /**
   However many polls there are, a delivery with a local record is resent at most as often as its count
   has room below the limit, and the stored count covers every resend and never passes the limit.
   */
  lemma {:induction false} ResendBound(counts: Counts, polls: seq<seq<Failed>>, max: int, uid: string)
    requires uid in counts && counts[uid] <= max
    ensures var after := CountsAfter(counts, polls, max);
      uid in after && counts[uid] + Resends(counts, polls, max, uid) <= after[uid] <= max
  {
    if polls != [] {
      var front := polls[..|polls| - 1];
      ResendBound(counts, front, max, uid);
      PollCounts(CountsAfter(counts, front, max), polls[|polls| - 1], max, uid, |polls[|polls| - 1]|);
    }
  }

  predicate Listed(failed: seq<Failed>, uid: string, k: nat)
    requires k <= |failed|
  {
    exists i :: 0 <= i < k && failed[i].uid == uid
  }

  /** At the limit a poll never resends it; a poll that gets through the list dead-letters it exactly if it lists it. */
  lemma {:induction false} OnlyDeadLettered(counts: Counts, failed: seq<Failed>, max: int, uid: string, k: nat)
    requires k <= |failed| && uid != "" && CountOf(counts, uid) >= max
    ensures var p := PollUpTo(counts, failed, max, k);
      p.counts.Keys == counts.Keys && CountOf(p.counts, uid) == CountOf(counts, uid)
      && uid !in p.resend && (!p.raised ==> (uid in p.dead <==> Listed(failed, uid, k)))
      && (uid in p.marked ==> uid in counts && uid in p.dead)
  {
    if k > 0 {
      OnlyDeadLettered(counts, failed, max, uid, k - 1);
      assert Listed(failed, uid, k) <==> Listed(failed, uid, k - 1) || failed[k - 1].uid == uid;
    }
  }

  // ----- the account of one poll -----

  function Appearances(failed: seq<Failed>, uid: string, k: nat): nat
    requires k <= |failed|
  {
    if k == 0 then 0 else Appearances(failed, uid, k - 1) + (if failed[k - 1].uid == uid then 1 else 0)
  }

  /** How many of a delivery's appearances in a poll still have room below the limit. */
  function Room(counts: Counts, max: int, uid: string, n: nat): nat {
    if uid !in counts then (if max > 0 then n else 0)
    else if counts[uid] >= max then 0
    else if counts[uid] + n <= max then n
    else max - counts[uid]
  }

  /** One turn: below the limit a resend, counted if there is a record; at it a dead letter; nothing for others. */
  lemma TurnAccount(p: Poll, f: Failed, max: int, uid: string)
    requires uid != "" && !StepDelivery(p, f, max).raised
    ensures var p' := StepDelivery(p, f, max);
      var mine, room := f.uid == uid, CountOf(p.counts, uid) < max;
      !p.raised && (uid in p'.counts <==> uid in p.counts)
      && Times(p'.resend, uid) == Times(p.resend, uid) + (if mine && room then 1 else 0)
      && Times(p'.dead, uid) == Times(p.dead, uid) + (if mine && !room then 1 else 0)
      && (uid in p.counts ==> p'.counts[uid] == p.counts[uid] + (if mine && room then 1 else 0))
  {}

  /**
   A poll that gets through its list resends a delivery exactly as often as it appears and has room, and
   dead-letters its other appearances; a recorded delivery is counted once for each resend.
   */
  lemma {:induction false} PollAccount(counts: Counts, failed: seq<Failed>, max: int, uid: string, k: nat)
    requires k <= |failed| && uid != "" && !PollUpTo(counts, failed, max, k).raised
    ensures var p, n := PollUpTo(counts, failed, max, k), Appearances(failed, uid, k);
      Times(p.resend, uid) == Room(counts, max, uid, n)
      && Times(p.resend, uid) + Times(p.dead, uid) == n
      && (uid in p.counts <==> uid in counts)
      && (uid in counts ==> p.counts[uid] == counts[uid] + Times(p.resend, uid))
  {
    if k > 0 {
      TurnAccount(PollUpTo(counts, failed, max, k - 1), failed[k - 1], max, uid);
      PollAccount(counts, failed, max, uid, k - 1);
    }
  }

  /** Entries without an id are passed over. */
  lemma {:induction false} BlankIgnored(counts: Counts, failed: seq<Failed>, max: int, k: nat)
    requires k <= |failed|
    ensures var p := PollUpTo(counts, failed, max, k);
      "" !in p.resend && "" !in p.dead && "" !in p.marked && CountOf(p.counts, "") == CountOf(counts, "")
  {
    if k > 0 {
      BlankIgnored(counts, failed, max, k - 1);
    }
  }

  /** What ends a poll early: a lookup that raises, or an increment that does, counted if it took effect. */
  lemma RaisesIff(p: Poll, f: Failed, max: int)
    requires !p.raised
    ensures var p' := StepDelivery(p, f, max);
      var increment := f.uid in p.counts && p.counts[f.uid] < max && f.incrementRaises;
      var counted := if !f.lookupRaises && f.applied then 1 else 0;
      (p'.raised <==> f.uid != "" && (f.lookupRaises || increment))
      && (p'.raised ==> p'.resend == p.resend && p'.dead == p.dead && Batch(p') == [])
      && (p'.raised ==> CountOf(p'.counts, f.uid) == CountOf(p.counts, f.uid) + counted)
  {}

  /** A delivery is marked exactly if it has a record and some appearance of it was dead-lettered without a raise. */
  lemma {:induction false} MarkedIff(counts: Counts, failed: seq<Failed>, max: int, uid: string, k: nat)
    requires k <= |failed| && uid != "" && !PollUpTo(counts, failed, max, k).raised
    ensures uid in PollUpTo(counts, failed, max, k).marked
      <==> exists i :: (0 <= i < k && failed[i].uid == uid && !failed[i].markRaises && uid in counts
            && counts[uid] + Room(counts, max, uid, Appearances(failed, uid, i)) >= max)
  {
    if k > 0 {
      MarkedIff(counts, failed, max, uid, k - 1);
      PollAccount(counts, failed, max, uid, k - 1);
    }
  }

  /** Without a local record nothing is counted: every poll resends the delivery, for ever. */
  lemma {:induction false} NoBoundWithoutRecord(counts: Counts, max: int, uid: string, n: nat)
    requires uid !in counts && uid != "" && max > 0
    ensures var polls := seq(n, _ => [Failed(uid, false, false, false, false)]);
      CountsAfter(counts, polls, max) == counts && Resends(counts, polls, max, uid) == n
  {
    if n > 0 {
      var failed := [Failed(uid, false, false, false, false)];
      var polls: seq<seq<Failed>> := seq(n, _ => failed);
      assert polls[..n - 1] == seq(n - 1, _ => failed);
      NoBoundWithoutRecord(counts, max, uid, n - 1);
      assert PollUpTo(counts, failed, max, 1) == StepDelivery(PollUpTo(counts, failed, max, 0), failed[0], max);
      assert PollAll(counts, failed, max) == Poll(counts, {}, [uid], [], false);
    }
  }
}
