/** Text as Python handles it: lower case, int(), strip, split and join. */
module Text {
  import opened Wrappers

  function LowerChar(c: char): char {
    if 'A' <= c <= 'Z' then c - 'A' + 'a' else c
  }

  function Lower(s: string): (r: string)
    ensures |r| == |s|
    ensures forall i :: 0 <= i < |s| ==> r[i] == LowerChar(s[i])
  {
    seq(|s|, i requires 0 <= i < |s| => LowerChar(s[i]))
  }

  predicate StartsWith(s: string, prefix: string) {
    |prefix| <= |s| && s[..|prefix|] == prefix
  }

  // ----- white space -----

  predicate IsSpace(c: char) {
    '\t' <= c <= '\r' || '\U{1C}' <= c <= ' ' || c == '\U{85}' || c == '\U{A0}' || c == '\U{1680}'
    || '\U{2000}' <= c <= '\U{200A}' || c == '\U{2028}' || c == '\U{2029}' || c == '\U{202F}'
    || c == '\U{205F}' || c == '\U{3000}'
  }

  predicate EndsInSpace(s: string) {
    s != "" && IsSpace(s[|s| - 1])
  }

  function LStrip(s: string): (r: string)
    ensures r != "" ==> s != "" && r[|r| - 1] == s[|s| - 1] && !IsSpace(r[0])
    ensures forall c :: c in r ==> c in s
  {
    if s != "" && IsSpace(s[0]) then LStrip(s[1..]) else s
  }

  function RStrip(s: string): (r: string)
    ensures !EndsInSpace(r)
    ensures forall c :: c in r ==> c in s
  {
    if EndsInSpace(s) then RStrip(s[..|s| - 1]) else s
  }

  function Strip(s: string): (r: string)
    ensures !EndsInSpace(r)
    ensures forall c :: c in r ==> c in s
  {
    RStrip(LStrip(s))
  }

  predicate AllSpace(s: string) {
    forall i :: 0 <= i < |s| ==> IsSpace(s[i])
  }

  lemma {:induction false} LStripCuts(s: string) returns (before: string)
    ensures s == before + LStrip(s) && AllSpace(before)
  {
    before := "";
    if s != "" && IsSpace(s[0]) {
      var rest := LStripCuts(s[1..]);
      before := [s[0]] + rest;
    }
  }

  lemma {:induction false} RStripCuts(s: string) returns (after: string)
    ensures s == RStrip(s) + after && AllSpace(after)
  {
    after := "";
    if EndsInSpace(s) {
      var rest := RStripCuts(s[..|s| - 1]);
      after := rest + [s[|s| - 1]];
    }
  }

  /** Stripping takes white space off both ends, all of it and nothing else. */
  lemma StripCuts(s: string) returns (before: string, after: string)
    ensures s == before + Strip(s) + after && AllSpace(before) && AllSpace(after)
    ensures Strip(s) != "" ==> !IsSpace(Strip(s)[0]) && !IsSpace(Strip(s)[|Strip(s)| - 1])
  {
    before := LStripCuts(s);
    after := RStripCuts(LStrip(s));
    if Strip(s) != "" {
      assert LStrip(s)[0] == Strip(s)[0];
    }
  }

  // ----- split and join -----

  function Split(s: string, sep: char): (r: seq<string>)
    ensures |r| > 0
    ensures forall i :: 0 <= i < |r| ==> sep !in r[i]
  {
    if s == "" then [""]
    else
      var rest := Split(s[1..], sep);
      if s[0] == sep then [""] + rest else [[s[0]] + rest[0]] + rest[1..]
  }

  function Join(parts: seq<string>, sep: char): string {
    if parts == [] then ""
    else if |parts| == 1 then parts[0]
    else parts[0] + [sep] + Join(parts[1..], sep)
  }

  lemma {:induction false} SplitPlain(s: string, sep: char)
    requires sep !in s
    ensures Split(s, sep) == [s]
  {
    if s != "" {
      assert [s[0]] + s[1..] == s;
      SplitPlain(s[1..], sep);
    }
  }

  lemma {:induction false} SplitAt(s: string, sep: char, rest: string)
    requires sep !in s
    ensures Split(s + [sep] + rest, sep) == [s] + Split(rest, sep)
  {
    if s == "" {
      assert ([sep] + rest)[1..] == rest && s + [sep] + rest == [sep] + rest;
    } else {
      var all := s + [sep] + rest;
      assert all[0] == s[0] && all[1..] == s[1..] + [sep] + rest;
      assert [s[0]] + s[1..] == s;
      SplitAt(s[1..], sep, rest);
    }
  }

  /** Splitting undoes joining when no part holds the separator. */
  lemma {:induction false} SplitJoin(parts: seq<string>, sep: char)
    requires parts != [] && forall i :: 0 <= i < |parts| ==> sep !in parts[i]
    ensures Split(Join(parts, sep), sep) == parts
  {
    if |parts| == 1 {
      SplitPlain(parts[0], sep);
    } else {
      SplitJoin(parts[1..], sep);
      SplitAt(parts[0], sep, Join(parts[1..], sep));
    }
  }

  // ----- decimal integers -----

  predicate IsDigit(c: char) {
    '0' <= c <= '9'
  }

  function Digits(n: nat): (r: string)
    ensures r != "" && forall c :: c in r ==> IsDigit(c)
  {
    var last := ['0' + (n % 10) as char];
    if n < 10 then last else Digits(n / 10) + last
  }

  /** str() of an integer. */
  function Decimal(n: int): string {
    if n < 0 then "-" + Digits(-n) else Digits(n)
  }

  /** Digits, where single underscores may stand between two of them. */
  function ParseDigits(s: string): Option<nat> {
    if s == "" || !IsDigit(s[|s| - 1]) then None
    else
      var front, d := s[..|s| - 1], (s[|s| - 1] - '0') as nat;
      if front == "" then Some(d)
      else
        match ParseDigits(if front[|front| - 1] == '_' then front[..|front| - 1] else front)
        case None => None
        case Some(v) => Some(10 * v + d)
  }

  /** int() of a text; None is ValueError. */
  function ParseInt(s: string): Option<int> {
    var t := Strip(s);
    var signed := t != "" && (t[0] == '-' || t[0] == '+');
    match ParseDigits(if signed then t[1..] else t)
    case None => None
    case Some(v) =>
      var magnitude: int := v;
      Some(if signed && t[0] == '-' then -magnitude else magnitude)
  }

  lemma {:induction false} ParseDigitsInverts(n: nat)
    ensures ParseDigits(Digits(n)) == Some(n)
  {
    var s := Digits(n);
    if n >= 10 {
      ParseDigitsInverts(n / 10);
      assert s[..|s| - 1] == Digits(n / 10);
      assert IsDigit(Digits(n / 10)[|Digits(n / 10)| - 1]);
    }
  }

  /** What int() takes for digits: digits, with single underscores between two of them. */
  predicate Numeral(s: string) {
    s != "" && IsDigit(s[0]) && IsDigit(s[|s| - 1])
    && (forall i :: 0 <= i < |s| ==> IsDigit(s[i]) || s[i] == '_')
    && (forall i :: 0 < i < |s| ==> !(s[i - 1] == '_' && s[i] == '_'))
  }

  lemma {:induction false} ParsesIff(s: string)
    ensures ParseDigits(s).Some? <==> Numeral(s)
    decreases |s|
  {
    if s != "" && IsDigit(s[|s| - 1]) && |s| > 1 {
      var front := s[..|s| - 1];
      var rest := if front[|front| - 1] == '_' then front[..|front| - 1] else front;
      ParsesIff(rest);
      assert forall i :: 0 <= i < |rest| ==> rest[i] == s[i];
      if Numeral(s) {
        assert s[|s| - 2] == '_' ==> s[|s| - 3] != '_' && IsDigit(s[|s| - 3]);
      }
    }
  }

  lemma DigitsEnds(n: nat)
    ensures var s := Digits(n); IsDigit(s[0]) && IsDigit(s[|s| - 1])
  {
    var s := Digits(n);
    assert s[0] in s && s[|s| - 1] in s;
  }

  lemma StripNothing(s: string)
    requires s != "" && !IsSpace(s[0]) && !IsSpace(s[|s| - 1])
    ensures Strip(s) == s
  {}

  /** int(str(n)) is n. */
  lemma ParseIntInverts(n: int)
    ensures ParseInt(Decimal(n)) == Some(n)
  {
    var s, magnitude := Decimal(n), if n < 0 then -n else n;
    var digits := Digits(magnitude);
    ParseDigitsInverts(magnitude);
    DigitsEnds(magnitude);
    assert s[|s| - 1] == digits[|digits| - 1];
    StripNothing(s);
    if n < 0 {
      assert s[0] == '-' && s[1..] == digits;
    }
  }

  lemma CutNotEarlier(a: string, x: string, b: string, y: string, sep: char)
    requires sep !in b && a + [sep] + x == b + [sep] + y
    ensures |b| <= |a|
  {
    assert (a + [sep] + x)[|a|] == sep;
  }

  /** Two texts free of a separator are determined by their concatenation around it. */
  lemma CutUnique(a: string, x: string, b: string, y: string, sep: char)
    requires sep !in a && sep !in b && a + [sep] + x == b + [sep] + y
    ensures a == b && x == y
  {
    CutNotEarlier(a, x, b, y, sep);
    CutNotEarlier(b, y, a, x, sep);
    var s := a + [sep] + x;
    assert a == s[..|a|] && b == s[..|a|];
    assert x == s[|a| + 1..] && y == s[|a| + 1..];
  }

  lemma LastCutNotLater(a: string, x: string, b: string, y: string, sep: char)
    requires sep !in y && a + [sep] + x == b + [sep] + y
    ensures |a| <= |b|
  {
    assert (a + [sep] + x)[|a|] == sep;
  }

  /** The same from the right: the parts after the separator are free of it. */
  lemma LastCutUnique(a: string, x: string, b: string, y: string, sep: char)
    requires sep !in x && sep !in y && a + [sep] + x == b + [sep] + y
    ensures a == b && x == y
  {
    LastCutNotLater(a, x, b, y, sep);
    LastCutNotLater(b, y, a, x, sep);
    var s := a + [sep] + x;
    assert a == s[..|a|] && b == s[..|a|];
    assert x == s[|a| + 1..] && y == s[|a| + 1..];
  }

  lemma DecimalFree(n: int, c: char)
    requires !IsDigit(c) && c != '-'
    ensures c !in Decimal(n)
  {
  }

  lemma DecimalInjective(a: int, b: int)
    requires Decimal(a) == Decimal(b)
    ensures a == b
  {
    ParseIntInverts(a);
    ParseIntInverts(b);
  }
}
