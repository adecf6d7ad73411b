/** The in-memory trigger index and event type detection, against a scan of the whole trigger list. */
module TriggerIndex {
  import opened Wrappers
  import opened Text
  import opened Seqs
  import opened EventBus

  /** `computed` is the topic derived from the event signature; an absent contract is the empty text. */
  datatype Trigger = Trigger(id: string, topic0: string, computed: string, chainIds: seq<int>, contract: string)

  type Index = map<string, seq<Trigger>>

  function KeyOf(t: Trigger): string {
    Lower(if t.topic0 != "" then t.topic0 else t.computed)
  }

  function Lookup(index: Index, key: string): seq<Trigger> {
    if key in index then index[key] else []
  }

  function IndexOf(triggers: seq<Trigger>): Index {
    if triggers == [] then map[]
    else
      var front, t := IndexOf(triggers[..|triggers| - 1]), triggers[|triggers| - 1];
      front[KeyOf(t) := Lookup(front, KeyOf(t)) + [t]]
  }

  /** A lookup is the in-order selection, by key, of the whole list. */
  lemma {:induction false} LookupIsScan(triggers: seq<Trigger>, key: string)
    ensures Lookup(IndexOf(triggers), key) == Filter((t: Trigger) => KeyOf(t) == key, triggers)
    ensures key in IndexOf(triggers) <==> Filter((t: Trigger) => KeyOf(t) == key, triggers) != []
  {
    if triggers != [] {
      LookupIsScan(triggers[..|triggers| - 1], key);
    }
  }

  datatype Detected = UnknownType | Hardcoded(name: string) | Dynamic(triggers: seq<Trigger>)

  predicate ForLog(t: Trigger, chainId: Option<int>, contract: string) {
    (t.chainIds == [] || chainId.None? || chainId.value in t.chainIds)
    && (t.contract == "" || contract == "" || Lower(t.contract) == Lower(contract))
  }

  predicate Wants(t: Trigger, topic: string, chainId: Option<int>, contract: string) {
    KeyOf(t) == topic && ForLog(t, chainId, contract)
  }

  /** Detection by reading the whole list of active triggers. */
  function DetectByScan(active: seq<Trigger>, signatures: map<string, string>, raw: Topics, chainId: Option<int>,
                        contract: string): Detected {
    var topics := ParseTopics(raw);
    if topics == [] then UnknownType
    else
      var topic := Lower(topics[0]);
      if topic in signatures then Hardcoded(signatures[topic])
      else
        var wanted := Filter((t: Trigger) => Wants(t, topic, chainId, contract), active);
        if wanted == [] then UnknownType else Dynamic(wanted)
  }

  /** A trigger of the log, in terms of its columns: its topic up to case, its chains and its contract up to case. */
  predicate Fires(t: Trigger, topic: string, chainId: Option<int>, contract: string) {
    (if t.topic0 == "" then Lower(t.computed) == Lower(topic) else Lower(t.topic0) == Lower(topic))
    && (t.chainIds == [] || chainId == None || chainId.value in t.chainIds)
    && (t.contract == "" || contract == "" || Lower(contract) == Lower(t.contract))
  }

  /** What detection answers, by the columns of the active triggers: each that fires as often as it is active. */
  ghost predicate Detects(
    r: Detected, active: seq<Trigger>, signatures: map<string, string>, raw: Topics, chainId: Option<int>,
    contract: string)
  {
    var topics := ParseTopics(raw);
    var known := topics != [] && Lower(topics[0]) in signatures;
    var firing := topics != [] && exists t :: t in active && Fires(t, topics[0], chainId, contract);
    (r.Hardcoded? <==> known) && (known ==> r.name == signatures[Lower(topics[0])])
    && (r.Dynamic? <==> !known && firing)
    && (r.Dynamic? ==> forall t ::
          Occurs(r.triggers, t) == if Fires(t, topics[0], chainId, contract) then Occurs(active, t) else 0)
  }

  lemma ScanDetects(
    active: seq<Trigger>, signatures: map<string, string>, raw: Topics, chainId: Option<int>, contract: string)
    ensures var r := DetectByScan(active, signatures, raw, chainId, contract);
      Detects(r, active, signatures, raw, chainId, contract)
  {
    var topics := ParseTopics(raw);
    if topics != [] {
      var wants := (t: Trigger) => Wants(t, Lower(topics[0]), chainId, contract);
      var wanted := Filter(wants, active);
      forall t
        ensures Occurs(wanted, t) == if Fires(t, topics[0], chainId, contract) then Occurs(active, t) else 0
        ensures t in wanted <==> t in active && Fires(t, topics[0], chainId, contract)
      {
        FilterOccurs(wants, active, t);
        FilterMember(wants, active, t);
      }
      if wanted != [] {
        assert wanted[0] in wanted;
      }
    }
  }

  class Registry {
    var index: Index
    ghost var active: seq<Trigger>   // the list the index was last built from

    ghost predicate Valid() reads this {
      index == IndexOf(active)
    }

    constructor ()
      ensures Valid() && active == []
    {
      index, active := map[], [];
    }

    /** A failed query keeps the previous index. */
    method Refresh(query: Option<seq<Trigger>>)
      requires Valid()
      modifies this
      ensures Valid() && active == if query.Some? then query.value else old(active)
    {
      if query.None? {
        return;
      }
      var triggers := query.value;
      var newIndex: Index := map[];
      for i := 0 to |triggers|
        invariant newIndex == IndexOf(triggers[..i])
      {
        assert triggers[..i + 1][..i] == triggers[..i];
        var key := KeyOf(triggers[i]);
        newIndex := newIndex[key := Lookup(newIndex, key) + [triggers[i]]];
      }
      assert triggers[..|triggers|] == triggers;
      index, active := newIndex, triggers;
    }

    method Match(topic0: string) returns (r: seq<Trigger>)
      requires Valid()
      ensures r == Filter((t: Trigger) => KeyOf(t) == Lower(topic0), active)
    {
      r := Lookup(index, Lower(topic0));
      LookupIsScan(active, Lower(topic0));
    }

    method DetectByIndex(signatures: map<string, string>, raw: Topics, chainId: Option<int>, contract: string)
      returns (r: Detected)
      requires Valid()
      ensures r == DetectByScan(active, signatures, raw, chainId, contract)
    {

      var topics := ParseTopics(raw);
      if topics == [] {
        return UnknownType;
      }
      var topic := Lower(topics[0]);
      if topic in signatures {
        return Hardcoded(signatures[topic]);
      }
      LowerTwice(topics[0]);
      var triggers := Match(topic);
      var matched := SelectForLog(triggers, chainId, contract);
      ghost var wanted := (t: Trigger) => Wants(t, topic, chainId, contract);
      FilterTwice((t: Trigger) => KeyOf(t) == topic, (t: Trigger) => ForLog(t, chainId, contract), wanted, active);
      r := if matched != [] then Dynamic(matched) else UnknownType;
    }

    method SelectForLog(triggers: seq<Trigger>, chainId: Option<int>, contract: string) returns (matched: seq<Trigger>)
      ensures matched == Filter((t: Trigger) => ForLog(t, chainId, contract), triggers)
    {
      matched := [];
      ghost var forLog := (t: Trigger) => ForLog(t, chainId, contract);
      for i := 0 to |triggers|
        invariant matched == Filter(forLog, triggers[..i])
      {
        assert triggers[..i + 1] == triggers[..i] + [triggers[i]];
        FilterSnoc(forLog, triggers[..i], triggers[i]);
        var t := triggers[i];
        if t.chainIds != [] && chainId.Some? && chainId.value !in t.chainIds {
          continue;
        }
        if t.contract != "" && contract != "" && Lower(t.contract) != Lower(contract) {
          continue;
        }
        matched := matched + [t];
      }
      assert triggers[..|triggers|] == triggers;
    }

    /** Detection through the index gives what a scan of all active triggers gives. */
    method DetectEventType(signatures: map<string, string>, raw: Topics, chainId: Option<int>, contract: string)
      returns (r: Detected)
      requires Valid()
      ensures r == DetectByScan(active, signatures, raw, chainId, contract)
      ensures Detects(r, active, signatures, raw, chainId, contract)
    {
      r := DetectByIndex(signatures, raw, chainId, contract);
      ScanDetects(active, signatures, raw, chainId, contract);
    }
  }

  lemma LowerTwice(s: string)
    ensures Lower(Lower(s)) == Lower(s)
  {
  }
}
