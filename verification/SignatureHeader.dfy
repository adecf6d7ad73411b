/** The webhook signature header of the SDK: printing, parsing and verification. HMAC is a parameter. */
module SignatureHeader {
  import opened Wrappers
  import opened Text
  import Seqs

  const TOLERANCE_SECONDS := 300

  datatype Reason =
    | MissingSignatureHeader
    | InvalidTimestamp
    | MissingTimestamp
    | NoSignatures
    | TimestampTooOld
    | SignatureMismatch
    | NotAscii            // compare_digest raises TypeError

  type Hmac = (string, string) -> string

  // ----- printing -----

  function Part(sig: string): string {
    "v1=" + sig
  }

  function TimePart(t: int): string {
    "t=" + Decimal(t)
  }

  function Parts(t: int, sigs: seq<string>): seq<string> {
    [TimePart(t)] + Seqs.Map(Part, sigs)
  }

  /** The documented header: the time, then one v1 entry for each signature. */
  function Header(t: int, sigs: seq<string>): string {
    Join(Parts(t, sigs), ',')
  }

  /** Signatures that survive in a header. */
  predicate Printable(sigs: seq<string>) {
    sigs != [] && forall i :: 0 <= i < |sigs| ==> sigs[i] != "" && ',' !in sigs[i] && !EndsInSpace(sigs[i])
  }

  // ----- parsing -----

  datatype Found = Found(timestamp: Option<int>, signatures: seq<string>)

  function ScanPart(found: Found, part: string): Result<Found, Reason> {
    if StartsWith(part, "t=") then
      match ParseInt(part[2..])
      case None => Err(InvalidTimestamp)
      case Some(t) => Ok(found.(timestamp := Some(t)))
    else if StartsWith(part, "v1=") && part[3..] != "" then
      Ok(found.(signatures := found.signatures + [part[3..]]))
    else Ok(found)
  }

  function Scan(pieces: seq<string>): Result<Found, Reason> {
    if pieces == [] then Ok(Found(None, []))
    else
      match Scan(pieces[..|pieces| - 1])
      case Err(e) => Err(e)
      case Ok(found) => ScanPart(found, Strip(pieces[|pieces| - 1]))
  }

  function Parsed(header: string): Result<(int, seq<string>), Reason> {
    match Scan(Split(header, ','))
    case Err(e) => Err(e)
    case Ok(found) =>
      if found.timestamp.None? then Err(MissingTimestamp)
      else if found.signatures == [] then Err(NoSignatures)
      else Ok((found.timestamp.value, found.signatures))
  }

  /** A timestamp that does not parse fails the whole header, wherever it stands. */
  lemma {:induction false} ScanFailsAt(pieces: seq<string>, k: nat)
    requires k <= |pieces| && Scan(pieces[..k]).Err?
    ensures Scan(pieces) == Scan(pieces[..k])
    decreases |pieces|
  {
    if k < |pieces| {
      assert pieces[..|pieces| - 1][..k] == pieces[..k];
      ScanFailsAt(pieces[..|pieces| - 1], k);
    } else {
      assert pieces[..k] == pieces;
    }
  }

  method ParseSignatureHeader(header: string) returns (r: Result<(int, seq<string>), Reason>)
    ensures r == Parsed(header)
  {
    var pieces := Split(header, ',');
    var timestamp: Option<int> := None;
    var signatures: seq<string> := [];
    for i := 0 to |pieces|
      invariant Scan(pieces[..i]) == Ok(Found(timestamp, signatures))
    {
      var part := Strip(pieces[i]);
      assert pieces[..i + 1][..i] == pieces[..i];
      if StartsWith(part, "t=") {
        var t := ParseInt(part[2..]);
        if t.None? {
          ScanFailsAt(pieces, i + 1);
          return Err(InvalidTimestamp);
        }
        timestamp := t;
      } else if StartsWith(part, "v1=") {
        var sig := part[3..];
        if sig != "" {
          signatures := signatures + [sig];
        }
      }
    }
    assert pieces[..|pieces|] == pieces;
    if timestamp.None? {
      return Err(MissingTimestamp);
    }
    if signatures == [] {
      return Err(NoSignatures);
    }
    r := Ok((timestamp.value, signatures));
  }

  // ----- what a header says, piece by piece -----

  predicate TimePiece(piece: string) {
    StartsWith(Strip(piece), "t=")
  }

  predicate SignaturePiece(piece: string, sig: string) {
    sig != "" && Strip(piece) == "v1=" + sig
  }

  predicate HasTime(pieces: seq<string>) {
    exists i :: 0 <= i < |pieces| && TimePiece(pieces[i])
  }

  predicate HasBadTime(pieces: seq<string>) {
    exists i :: 0 <= i < |pieces| && TimePiece(pieces[i]) && ParseInt(Strip(pieces[i])[2..]).None?
  }

  predicate HasSignature(pieces: seq<string>, sig: string) {
    exists i :: 0 <= i < |pieces| && SignaturePiece(pieces[i], sig)
  }

  /** The last time piece counts. */
  predicate LastTime(pieces: seq<string>, t: int) {
    exists i :: (0 <= i < |pieces| && TimePiece(pieces[i]) && ParseInt(Strip(pieces[i])[2..]) == Some(t)
      && forall j :: i < j < |pieces| ==> !TimePiece(pieces[j]))
  }

  lemma PieceEffect(found: Found, piece: string)
    ensures var r := ScanPart(found, Strip(piece));
      (r.Err? <==> TimePiece(piece) && ParseInt(Strip(piece)[2..]).None?) && (r.Err? ==> r.error == InvalidTimestamp)
      && (r.Ok? ==>
            (if TimePiece(piece) then r.value.timestamp == ParseInt(Strip(piece)[2..])
             else r.value.timestamp == found.timestamp)
            && (forall sig :: SignaturePiece(piece, sig) ==> r.value.signatures == found.signatures + [sig])
            && ((forall sig :: !SignaturePiece(piece, sig)) ==> r.value.signatures == found.signatures))
  {
    var part := Strip(piece);
    forall sig | SignaturePiece(piece, sig) ensures StartsWith(part, "v1=") && !TimePiece(piece) && part[3..] == sig {
      assert part[..3] == "v1=" && part[0] == 'v';
    }
    if StartsWith(part, "v1=") && part[3..] != "" {
      assert part == part[..3] + part[3..];
      assert SignaturePiece(piece, part[3..]);
    }
  }

  lemma {:induction false} ScanFailsIff(pieces: seq<string>)
    ensures Scan(pieces).Err? <==> HasBadTime(pieces)
    ensures Scan(pieces).Err? ==> Scan(pieces).error == InvalidTimestamp
  {
    if pieces != [] {
      var front, last := pieces[..|pieces| - 1], pieces[|pieces| - 1];
      ScanFailsIff(front);
      assert pieces == front + [last];
      assert HasBadTime(pieces) <==> HasBadTime(front) || (TimePiece(last) && ParseInt(Strip(last)[2..]).None?);
      if Scan(front).Ok? {
        PieceEffect(Scan(front).value, last);
      }
    }
  }

  lemma {:induction false} ScanLaw(pieces: seq<string>)
    requires Scan(pieces).Ok?
    ensures Scan(pieces).value.timestamp.None? <==> !HasTime(pieces)
    ensures HasTime(pieces) ==> LastTime(pieces, Scan(pieces).value.timestamp.value)
    ensures forall sig :: sig in Scan(pieces).value.signatures <==> HasSignature(pieces, sig)
  {
    if pieces != [] {
      var front, last := pieces[..|pieces| - 1], pieces[|pieces| - 1];
      ScanLaw(front);
      assert pieces == front + [last];
      ScanSnoc(front, last, Scan(front).value);
    }
  }

  lemma TimeSnoc(front: seq<string>, last: string, found: Found)
    requires found.timestamp.None? <==> !HasTime(front)
    requires HasTime(front) ==> LastTime(front, found.timestamp.value)
    requires ScanPart(found, Strip(last)).Ok?
    ensures var r := ScanPart(found, Strip(last)).value;
      (HasTime(front + [last]) ==> r.timestamp.Some? && LastTime(front + [last], r.timestamp.value))
      && (!HasTime(front + [last]) ==> r.timestamp.None?)
  {
    var pieces := front + [last];
    PieceEffect(found, last);
    assert pieces[|front|] == last;
    if !TimePiece(last) && HasTime(front) {
      var i :| 0 <= i < |front| && TimePiece(front[i]) && ParseInt(Strip(front[i])[2..]) == Some(found.timestamp.value)
        && forall j :: i < j < |front| ==> !TimePiece(front[j]);
      assert pieces[i] == front[i];
    }
  }

  /** Time and signatures after one more piece. */
  lemma ScanSnoc(front: seq<string>, last: string, found: Found)
    requires forall sig :: sig in found.signatures <==> HasSignature(front, sig)
    requires found.timestamp.None? <==> !HasTime(front)
    requires HasTime(front) ==> LastTime(front, found.timestamp.value)
    requires ScanPart(found, Strip(last)).Ok?
    ensures var r := ScanPart(found, Strip(last)).value;
      (forall sig :: sig in r.signatures <==> HasSignature(front + [last], sig))
      && (HasTime(front + [last]) ==> r.timestamp.Some? && LastTime(front + [last], r.timestamp.value))
      && (!HasTime(front + [last]) ==> r.timestamp.None?)
  {
    var r := ScanPart(found, Strip(last)).value;
    TimeSnoc(front, last, found);
    forall sig ensures sig in r.signatures <==> HasSignature(front + [last], sig) {
      var pieces := front + [last];
      assert pieces[|front|] == last && forall i :: 0 <= i < |front| ==> pieces[i] == front[i];
      SignatureUnique(last, sig, r, found);
    }
  }

  lemma SignatureUnique(last: string, sig: string, r: Found, found: Found)
    requires ScanPart(found, Strip(last)) == Ok(r)
    ensures sig in r.signatures <==> sig in found.signatures || SignaturePiece(last, sig)
  {
    PieceEffect(found, last);
    if SignaturePiece(last, sig) {
      assert r.signatures == found.signatures + [sig];
    } else if other :| SignaturePiece(last, other) {
      assert r.signatures == found.signatures + [other];
      assert other == sig ==> SignaturePiece(last, sig);
    }
  }

  /**
   The three errors and the answer, by the pieces of the header: a bad time anywhere, else no time, else no
   signature, else the last time and exactly the signatures given.
   */
  lemma ParsedLaw(header: string)
    ensures var pieces, r := Split(header, ','), Parsed(header);
      (r.Err? ==> r.error in {InvalidTimestamp, MissingTimestamp, NoSignatures})
      && (r == Err(InvalidTimestamp) <==> HasBadTime(pieces))
      && (r == Err(MissingTimestamp) <==> !HasTime(pieces))
      && (r == Err(NoSignatures) <==>
            HasTime(pieces) && !HasBadTime(pieces) && forall sig :: !HasSignature(pieces, sig))
      && (r.Ok? ==> LastTime(pieces, r.value.0)
                    && forall sig :: sig in r.value.1 <==> HasSignature(pieces, sig))
  {
    var pieces := Split(header, ',');
    ScanFailsIff(pieces);
    if Scan(pieces).Ok? {
      ScanLaw(pieces);
      var sigs := Scan(pieces).value.signatures;
      if sigs != [] {
        assert sigs[0] in sigs;
      }
    }
  }

  // ----- round trip -----

  lemma {:induction false} ScanPrintable(pieces: seq<string>)
    requires forall i :: 0 <= i < |pieces| ==> ',' !in pieces[i]
    requires Scan(pieces).Ok? && Scan(pieces).value.signatures != []
    ensures Printable(Scan(pieces).value.signatures)
  {
    var front, part := pieces[..|pieces| - 1], Strip(pieces[|pieces| - 1]);
    if Scan(front).value.signatures != [] {
      ScanPrintable(front);
    }
    if StartsWith(part, "v1=") && part[3..] != "" {
      assert part[3..][|part[3..]| - 1] == part[|part| - 1];
      assert ',' !in part[3..];
    }
  }

  lemma ScanSignature(found: Found, sig: string)
    requires sig != "" && !EndsInSpace(sig)
    ensures ScanPart(found, Strip(Part(sig))) == Ok(found.(signatures := found.signatures + [sig]))
  {
    var part := Part(sig);
    assert part[|part| - 1] == sig[|sig| - 1];
    assert part[0] == 'v' && part[..3] == "v1=";
    assert part[3..] == sig;
  }

  lemma ScanTime(t: int)
    ensures ScanPart(Found(None, []), Strip(TimePart(t))) == Ok(Found(Some(t), []))
  {
    var part := TimePart(t);
    var digits := Digits(if t < 0 then -t else t);
    assert digits[|digits| - 1] in digits;
    assert Strip(part) == part by {
      assert part[0] == 't' && part[|part| - 1] == Decimal(t)[|Decimal(t)| - 1];
    }
    ParseIntInverts(t);
    assert part[..2] == "t=" && part[2..] == Decimal(t);
  }

  lemma PartsPlain(t: int, sigs: seq<string>)
    requires forall i :: 0 <= i < |sigs| ==> ',' !in sigs[i]
    ensures forall i :: 0 <= i < |Parts(t, sigs)| ==> ',' !in Parts(t, sigs)[i]
  {
    DecimalFree(t, ',');
    forall i | 0 < i < |Parts(t, sigs)| ensures ',' !in Parts(t, sigs)[i] {
      assert Parts(t, sigs)[i] == Part(sigs[i - 1]);
    }
  }

  lemma {:induction false} ScanPrinted(t: int, sigs: seq<string>)
    requires forall i :: 0 <= i < |sigs| ==> sigs[i] != "" && !EndsInSpace(sigs[i])
    ensures Scan(Parts(t, sigs)) == Ok(Found(Some(t), sigs))
  {
    var pieces := Parts(t, sigs);
    if sigs == [] {
      ScanTime(t);
      assert pieces[..0] == [];
    } else {
      var front, last := sigs[..|sigs| - 1], sigs[|sigs| - 1];
      assert (front + [last])[..|front|] == front;
      assert sigs == front + [last];
      assert pieces[..|pieces| - 1] == Parts(t, front);
      ScanPrinted(t, front);
      ScanSignature(Found(Some(t), front), last);
    }
  }

  /** Printing then parsing gives back the time and the signatures exactly when each signature is printable. */
  lemma RoundTrip(t: int, sigs: seq<string>)
    ensures Parsed(Header(t, sigs)) == Ok((t, sigs)) <==> Printable(sigs)
  {
    if Printable(sigs) {
      PartsPlain(t, sigs);
      SplitJoin(Parts(t, sigs), ',');
      ScanPrinted(t, sigs);
    } else {
      var pieces := Split(Header(t, sigs), ',');
      if Scan(pieces).Ok? && Scan(pieces).value.signatures != [] {
        ScanPrintable(pieces);
      }
    }
  }

  // ----- verification -----

  function SignedContent(t: int, payload: string): string {
    Decimal(t) + "." + payload
  }

  predicate Ascii(s: string) {
    forall i :: 0 <= i < |s| ==> s[i] < '\U{80}'
  }

  /** any(compare_digest(...)) in the order of the header. */
  function Compare(expected: string, provided: seq<string>): Result<bool, Reason> {
    if provided == [] then Ok(false)
    else if !Ascii(expected) || !Ascii(provided[0]) then Err(NotAscii)
    else if expected == provided[0] then Ok(true)
    else Compare(expected, provided[1..])
  }

  function Verify(hmac: Hmac, header: Option<string>, payload: string, secret: string, now: int): Result<(), Reason> {
    if header.None? || header.value == "" then Err(MissingSignatureHeader)
    else
      match Parsed(header.value)
      case Err(e) => Err(e)
      case Ok((t, sigs)) =>
        if (if now >= t then now - t else t - now) > TOLERANCE_SECONDS then Err(TimestampTooOld)
        else
          match Compare(hmac(secret, SignedContent(t, payload)), sigs)
          case Err(e) => Err(e)
          case Ok(found) => if found then Ok(()) else Err(SignatureMismatch)
  }

  function SignPayload(hmac: Hmac, payload: string, secret: string, now: int): string {
    "t=" + Decimal(now) + ",v1=" + hmac(secret, SignedContent(now, payload))
  }

  lemma {:induction false} CompareAscii(expected: string, provided: seq<string>)
    requires Ascii(expected) && forall i :: 0 <= i < |provided| ==> Ascii(provided[i])
    ensures Compare(expected, provided) == Ok(expected in provided)
  {
    if provided != [] {
      CompareAscii(expected, provided[1..]);
    }
  }

  /**
   A header with any mixture of rotated keys verifies exactly when its time is within the tolerance and
   the signature made with this secret is among its entries.
   */
  lemma VerifiesIff(hmac: Hmac, t: int, sigs: seq<string>, payload: string, secret: string, now: int)
    requires Printable(sigs) && forall i :: 0 <= i < |sigs| ==> Ascii(sigs[i])
    requires Ascii(hmac(secret, SignedContent(t, payload)))
    ensures Verify(hmac, Some(Header(t, sigs)), payload, secret, now).Ok?
      <==> -300 <= now - t <= 300 && hmac(secret, SignedContent(t, payload)) in sigs
  {
    RoundTrip(t, sigs);
    CompareAscii(hmac(secret, SignedContent(t, payload)), sigs);
    assert Header(t, sigs)[0] == 't' by {
      assert Parts(t, sigs)[0][0] == 't';
    }
  }

  /** Each way to fail has its own reason, in the order of the checks. */
  lemma VerifyReasons(hmac: Hmac, header: Option<string>, payload: string, secret: string, now: int)
    ensures var r := Verify(hmac, header, payload, secret, now);
      (r == Err(MissingSignatureHeader) <==> header == None || header == Some(""))
      && (header.Some? && header.value != "" && Parsed(header.value).Err? ==> r == Err(Parsed(header.value).error))
      && (header.Some? && header.value != "" && Parsed(header.value).Ok? ==>
            (r == Err(TimestampTooOld) <==>
               now - Parsed(header.value).value.0 > 300 || Parsed(header.value).value.0 - now > 300))
  {
    if header.Some? && header.value != "" {
      ParsedLaw(header.value);
      if Parsed(header.value).Ok? {
        var (t, sigs) := Parsed(header.value).value;
        CompareErrors(hmac(secret, SignedContent(t, payload)), sigs);
      }
    }
  }

  /** The comparison raises at a signature that is not ASCII, if none before it matches. */
  lemma {:induction false} CompareLaw(expected: string, provided: seq<string>)
    requires Ascii(expected)
    ensures Compare(expected, provided) == Ok(true)
      <==> exists i :: (0 <= i < |provided| && provided[i] == expected && forall j :: 0 <= j < i ==> Ascii(provided[j]))
    ensures Compare(expected, provided) == Ok(false)
      <==> expected !in provided && forall j :: 0 <= j < |provided| ==> Ascii(provided[j])
  {
    if provided != [] {
      CompareLaw(expected, provided[1..]);
      assert forall i :: 0 < i < |provided| ==> provided[i] == provided[1..][i - 1];
      if Compare(expected, provided[1..]) == Ok(true) && Ascii(provided[0]) && provided[0] != expected {
        var i :| 0 <= i < |provided[1..]| && provided[1..][i] == expected
          && forall j :: 0 <= j < i ==> Ascii(provided[1..][j]);
        assert provided[i + 1] == expected;
      }
    }
  }

  lemma {:induction false} CompareErrors(expected: string, provided: seq<string>)
    ensures Compare(expected, provided).Err? ==> Compare(expected, provided).error == NotAscii
    ensures !Ascii(expected) && provided != [] ==> Compare(expected, provided) == Err(NotAscii)
  {
    if provided != [] {
      CompareErrors(expected, provided[1..]);
    }
  }

  /** A payload signed at t verifies under the same secret exactly while the clock is within 300 seconds of t. */
  lemma SignedVerifies(hmac: Hmac, payload: string, secret: string, t: int, now: int)
    requires var sig := hmac(secret, SignedContent(t, payload)); Printable([sig]) && Ascii(sig)
    ensures Verify(hmac, Some(SignPayload(hmac, payload, secret, t)), payload, secret, now)
      == if -300 <= now - t <= 300 then Ok(()) else Err(TimestampTooOld)
  {
    var sig := hmac(secret, SignedContent(t, payload));
    var parts := Parts(t, [sig]);
    assert parts[1..] == [Part(sig)] && Join([Part(sig)], ',') == Part(sig);
    assert Header(t, [sig]) == parts[0] + [','] + Join(parts[1..], ',') == TimePart(t) + [','] + Part(sig);
    assert SignPayload(hmac, payload, secret, t) == Header(t, [sig]);
    RoundTrip(t, [sig]);
    VerifiesIff(hmac, t, [sig], payload, secret, now);
  }

  /** What is signed fixes both the time and the payload, so no signature serves for two of them. */
  lemma ContentInjective(t: int, payload: string, u: int, other: string)
    requires SignedContent(t, payload) == SignedContent(u, other)
    ensures t == u && payload == other
  {
    DecimalFree(t, '.');
    DecimalFree(u, '.');
    CutUnique(Decimal(t), payload, Decimal(u), other, '.');
    DecimalInjective(t, u);
  }
}
