/** Routing of raw logs to streams by topic, under the cap on distinct streams. */
module EventBus {
  import opened Text
  import opened Seqs
  import opened Arith

  const STREAM_PREFIX := "tripwire:events:"
  const MAX_STREAMS := 500

  /** The topics of a raw log: a list, a comma-separated text, or something else. */
  datatype Topics = Listed(topics: seq<string>) | Joined(text: string) | Other

  function NonEmptyStripped(pieces: seq<string>): seq<string> {
    if pieces == [] then []
    else (if Strip(pieces[0]) != "" then [Strip(pieces[0])] else []) + NonEmptyStripped(pieces[1..])
  }

  function ParseTopics(raw: Topics): seq<string> {
    match raw
    case Listed(topics) => topics
    case Joined(text) => NonEmptyStripped(Split(text, ','))
    case Other => []
  }

  predicate IsHex(c: char) {
    '0' <= c <= '9' || 'a' <= c <= 'f'
  }

  /** ^0x[0-9a-f]{64}$, whose end also matches before a final line break. */
  predicate HexTopic(s: string) {
    (|s| == 66 || (|s| == 67 && s[66] == '\n'))
    && s[0] == '0' && s[1] == 'x' && forall i :: 2 <= i < 66 ==> IsHex(s[i])
  }

  function Unknown(): string {
    STREAM_PREFIX + "unknown"
  }

  function StreamKeyFor(raw: Topics): string {
    var topics := ParseTopics(raw);
    if topics != [] && HexTopic(Lower(topics[0])) then STREAM_PREFIX + Lower(topics[0]) else Unknown()
  }

  function Route(known: set<string>, key: string): string {
    if key in known || |known| < MAX_STREAMS then key else Unknown()
  }

  function KnownAfter(known: set<string>, key: string): set<string> {
    if key in known || |known| >= MAX_STREAMS then known else known + {key}
  }

  /** The known streams after the first k keys of a run. */
  function KnownAt(initial: set<string>, keys: seq<string>, k: nat): set<string>
    requires k <= |keys|
  {
    if k == 0 then initial else KnownAfter(KnownAt(initial, keys, k - 1), keys[k - 1])
  }

  function StreamAt(initial: set<string>, keys: seq<string>, k: nat): string
    requires k < |keys|
  {
    Route(KnownAt(initial, keys, k), keys[k])
  }

  class Publisher {
    var knownStreamKeys: set<string>

    method CheckStreamCap(key: string) returns (routed: string)
      modifies this
      ensures routed == Route(old(knownStreamKeys), key)
      ensures knownStreamKeys == KnownAfter(old(knownStreamKeys), key)
    {
      if key in knownStreamKeys {
        return key;
      }
      if |knownStreamKeys| >= MAX_STREAMS {
        return Unknown();
      }
      knownStreamKeys := knownStreamKeys + {key};
      return key;
    }

    /** The streams a batch is written to, in order. */
    method RouteBatch(keys: seq<string>) returns (streams: seq<string>)
      modifies this
      ensures |streams| == |keys| && knownStreamKeys == KnownAt(old(knownStreamKeys), keys, |keys|)
      ensures forall i :: 0 <= i < |keys| ==> streams[i] == StreamAt(old(knownStreamKeys), keys, i)
    {
      streams := [];
      for i := 0 to |keys|
        invariant |streams| == i && knownStreamKeys == KnownAt(old(knownStreamKeys), keys, i)
        invariant forall j :: 0 <= j < i ==> streams[j] == StreamAt(old(knownStreamKeys), keys, j)
      {
        var routed := CheckStreamCap(keys[i]);
        streams := streams + [routed];
      }
    }
  }

  /** The known streams only grow, and never pass the cap unless they started above it. */
  lemma {:induction false} KnownGrows(initial: set<string>, keys: seq<string>, i: nat, j: nat)
    requires i <= j <= |keys|
    ensures KnownAt(initial, keys, i) <= KnownAt(initial, keys, j)
    ensures |KnownAt(initial, keys, j)| <= Max(MAX_STREAMS, |initial|)
    decreases i + j
  {
    if i < j {
      KnownGrows(initial, keys, i, j - 1);
    } else if j > 0 {
      KnownGrows(initial, keys, j - 1, j - 1);
    }
  }

  /** A full set of streams stays as it is. */
  lemma {:induction false} FullStays(initial: set<string>, keys: seq<string>, i: nat, j: nat)
    requires i <= j <= |keys| && |KnownAt(initial, keys, i)| >= MAX_STREAMS
    ensures KnownAt(initial, keys, j) == KnownAt(initial, keys, i)
    decreases j
  {
    if i < j {
      FullStays(initial, keys, i, j - 1);
    }
  }

  lemma KeyStable(initial: set<string>, keys: seq<string>, i: nat, j: nat)
    requires i <= j < |keys| && keys[i] == keys[j]
    ensures StreamAt(initial, keys, i) == StreamAt(initial, keys, j)
    ensures StreamAt(initial, keys, i) == keys[i] <==> keys[i] == Unknown() || keys[i] in KnownAt(initial, keys, |keys|)
  {
    var key, known := keys[i], KnownAt(initial, keys, i);
    if key in known || |known| < MAX_STREAMS {
      assert key in KnownAt(initial, keys, i + 1);
      if i < j {
        KnownGrows(initial, keys, i + 1, j);
      }
      KnownGrows(initial, keys, i + 1, |keys|);
    } else {
      FullStays(initial, keys, i, j);
      FullStays(initial, keys, i, |keys|);
    }
  }

  /**
   In a run of any length, logs whose first topics agree up to case go to the same stream, which is the
   topic's own or `unknown`; it is the topic's own exactly when the run came to know that stream.
   */
  lemma RoutingStable(initial: set<string>, logs: seq<Topics>, i: nat, j: nat)
    requires i <= j < |logs| && ParseTopics(logs[i]) != [] && ParseTopics(logs[j]) != []
    requires Lower(ParseTopics(logs[i])[0]) == Lower(ParseTopics(logs[j])[0])
    ensures var keys := Map(StreamKeyFor, logs);
      StreamAt(initial, keys, i) == StreamAt(initial, keys, j)
      && StreamAt(initial, keys, i) in {keys[i], Unknown()}
      && (StreamAt(initial, keys, i) == keys[i]
          <==> keys[i] == Unknown() || keys[i] in KnownAt(initial, keys, |keys|))
  {
    var keys := Map(StreamKeyFor, logs);
    assert keys[i] == StreamKeyFor(logs[i]) && keys[j] == StreamKeyFor(logs[j]);
    KeyStable(initial, keys, i, j);
  }

  /** The cap: a known key, or any while fewer than 500 are known, keeps its stream; others go to `unknown`. */
  lemma CapLaw(known: set<string>, key: string)
    ensures Route(known, key) == key <==> key in known || |known| < 500 || key == Unknown()
    ensures Route(known, key) in {key, Unknown()}
    ensures KnownAfter(known, key) == if |known| < 500 then known + {key} else known
  {}

  // ----- which stream a topic names -----

  lemma {:induction false} StrippedMember(pieces: seq<string>, x: string)
    ensures x in NonEmptyStripped(pieces) <==> x != "" && Piece(pieces, x)
  {
    if pieces != [] {
      StrippedMember(pieces[1..], x);
      assert forall i :: 0 < i < |pieces| ==> pieces[i] == pieces[1..][i - 1];
      if j :| 0 <= j < |pieces[1..]| && Strip(pieces[1..][j]) == x {
        assert pieces[j + 1] == pieces[1..][j];
      }
    }
  }

  predicate Piece(pieces: seq<string>, x: string) {
    exists i :: 0 <= i < |pieces| && Strip(pieces[i]) == x
  }

  /** The topics of a comma-separated text are its stripped pieces without the empty ones; a list stays as it is. */
  lemma TopicsMember(raw: Topics, x: string)
    ensures raw.Listed? ==> ParseTopics(raw) == raw.topics
    ensures raw.Joined? ==> (x in ParseTopics(raw) <==> x != "" && Piece(Split(raw.text, ','), x))
    ensures raw.Other? ==> ParseTopics(raw) == []
  {
    if raw.Joined? {
      StrippedMember(Split(raw.text, ','), x);
    }
  }

  /** The first piece that is not blank comes first. */
  lemma {:induction false} FirstStripped(pieces: seq<string>, k: nat)
    requires k < |pieces| && Strip(pieces[k]) != "" && forall i :: 0 <= i < k ==> Strip(pieces[i]) == ""
    ensures NonEmptyStripped(pieces) != [] && NonEmptyStripped(pieces)[0] == Strip(pieces[k])
  {
    if k > 0 {
      FirstStripped(pieces[1..], k - 1);
    }
  }

  /** 0x and 64 hexadecimal digits, in any case, possibly before a line break. */
  predicate Hexadecimal(topic: string) {
    |topic| in {66, 67} && topic[0] == '0' && topic[1] in {'x', 'X'}
    && (|topic| == 67 ==> topic[66] == '\n')
    && forall i :: 2 <= i < 66 ==> '0' <= topic[i] <= '9' || 'a' <= topic[i] <= 'f' || 'A' <= topic[i] <= 'F'
  }

  lemma HexTopicIff(topic: string)
    ensures HexTopic(Lower(topic)) <==> Hexadecimal(topic)
  {
    var low := Lower(topic);
    if |topic| in {66, 67} {
      assert forall i :: 0 <= i < |topic| ==> low[i] == LowerChar(topic[i]);
    }
  }

  /** A log has its own stream exactly if its first topic is hexadecimal; every other log goes to `unknown`. */
  lemma OwnStreamIff(raw: Topics)
    ensures var topics := ParseTopics(raw);
      if topics != [] && Hexadecimal(topics[0]) then StreamKeyFor(raw) == "tripwire:events:" + Lower(topics[0])
      else StreamKeyFor(raw) == "tripwire:events:unknown"
  {
    var topics := ParseTopics(raw);
    if topics != [] {
      HexTopicIff(topics[0]);
    }
  }

  /** Hexadecimal topics share a stream only if they agree up to case, and never share `unknown`. */
  lemma StreamsDistinct(a: Topics, b: Topics)
    requires ParseTopics(a) != [] && ParseTopics(b) != []
    requires Hexadecimal(ParseTopics(a)[0]) && Hexadecimal(ParseTopics(b)[0])
    ensures StreamKeyFor(a) == StreamKeyFor(b) <==> Lower(ParseTopics(a)[0]) == Lower(ParseTopics(b)[0])
    ensures StreamKeyFor(a) != Unknown()
  {
    var x, y := Lower(ParseTopics(a)[0]), Lower(ParseTopics(b)[0]);
    HexTopicIff(ParseTopics(a)[0]);
    HexTopicIff(ParseTopics(b)[0]);
    assert StreamKeyFor(a) == STREAM_PREFIX + x && StreamKeyFor(b) == STREAM_PREFIX + y;
    assert (STREAM_PREFIX + x)[|STREAM_PREFIX|..] == x && (STREAM_PREFIX + y)[|STREAM_PREFIX|..] == y;
    assert |STREAM_PREFIX + x| != |Unknown()|;
  }
}
