/** The canonical request that is signed with HMAC, and a parser that reads it back. */
module Canonical {
  import opened Text
  import opened Wrappers
  import Query

  const ALGORITHM := "AUTHRIM-HMAC-SHA256"

  datatype Error =
    | MissingHeader
    | UnsignedHeader
    | InvalidTimestamp
    | StaleTimestamp
    | UnknownKey
    | InvalidSignature
    | MalformedSignedField

  type Checked<T> = Fallible<T, Error>

  // ----- header values

  /** The maximal runs of non-space bytes, as `strings.Fields` finds them. */
  function Fields(s: string): seq<string>
    decreases |s|
  {
    var t := TrimLeft(s);
    TrimLeftShrinks(s);
    if t == "" then [] else
      var n := Run(t);
      [t[..n]] + Fields(t[n..])
  }

  /** The length of the leading run of non-space bytes. */
  function Run(s: string): (n: nat)
    ensures n <= |s|
    ensures forall i :: 0 <= i < n ==> !Space(s[i])
    ensures s != "" && !Space(s[0]) ==> n > 0
  {
    if s == "" || Space(s[0]) then 0 else 1 + Run(s[1..])
  }

  function NormalizeValue(value: string): string {
    Join(Fields(value), ' ')
  }

  lemma {:induction false} FieldsHaveNoSpace(s: string, i: nat, c: char)
    requires i < |Fields(s)| && Space(c)
    ensures Without(Fields(s)[i], c)
    decreases |s|
  {
    var t := TrimLeft(s);
    TrimLeftShrinks(s);
    var n := Run(t);
    if i > 0 {
      FieldsHaveNoSpace(t[n..], i - 1, c);
    }
  }

  /** A normalised value is one line. */
  lemma NormalizedIsOneLine(value: string)
    ensures Without(NormalizeValue(value), '\n') && Without(NormalizeValue(value), '\r')
  {
    forall i | 0 <= i < |Fields(value)| ensures Without(Fields(value)[i], '\n') && Without(Fields(value)[i], '\r') {
      FieldsHaveNoSpace(value, i, '\n');
      FieldsHaveNoSpace(value, i, '\r');
    }
    JoinWithout(Fields(value), ' ', '\n');
    JoinWithout(Fields(value), ' ', '\r');
  }

  // ----- the signed-header list

  function Name(part: string): string {
    Lower(Trim(part))
  }

  /** The distinct non-empty names in a list of parts. */
  function NamesOf(parts: seq<string>): set<string> {
    if parts == [] then {}
    else
      var name := Name(parts[|parts| - 1]);
      NamesOf(parts[..|parts| - 1]) + (if name == "" then {} else {name})
  }

  function Names(raw: string): set<string> {
    NamesOf(Split(raw, ';'))
  }

  lemma NamesOfNext(parts: seq<string>, i: nat)
    requires i < |parts|
    ensures NamesOf(parts[..i + 1]) == NamesOf(parts[..i]) + (if Name(parts[i]) == "" then {} else {Name(parts[i])})
  {
    assert parts[..i + 1][..i] == parts[..i];
  }

  lemma NameJoins(headers: seq<string>, seen: set<string>, name: string)
    requires multiset(headers) == multiset(seen) && name !in seen
    ensures multiset(headers + [name]) == multiset(seen + {name})
  {
  }

  /** The names in order of first appearance. */
  method CollectNames(parts: seq<string>) returns (headers: seq<string>)
    ensures multiset(headers) == multiset(NamesOf(parts))
  {
    var seen: set<string> := {};
    headers := [];
    for i := 0 to |parts|
      invariant seen == NamesOf(parts[..i])
      invariant multiset(headers) == multiset(seen)
    {
      NamesOfNext(parts, i);
      var name := Lower(Trim(parts[i]));
      if name == "" {
        continue;
      }
      if name in seen {
        continue;
      }
      NameJoins(headers, seen, name);
      seen := seen + {name};
      headers := headers + [name];
    }
    assert parts[..|parts|] == parts;
  }

  /** Splits, trims, lower-cases, drops empty and repeated names, and sorts. */
  method ParseSignedHeaders(raw: string) returns (headers: seq<string>)
    ensures headers == Sorting(Names(raw))
  {
    headers := CollectNames(Split(raw, ';'));
    SortOfDistinct(headers, Names(raw));
    headers := Sort(headers);
  }

  lemma LowerKeeps(s: string)
    ensures Lower(Lower(s)) == Lower(s) && (Tight(s) ==> Tight(Lower(s)))
    ensures Without(s, ';') ==> Without(Lower(s), ';')
  {
    assert forall c :: LowerByte(LowerByte(c)) == LowerByte(c);
    assert forall c :: Space(LowerByte(c)) <==> Space(c);
    assert forall c :: LowerByte(c) == ';' <==> c == ';';
  }

  lemma {:induction false} TrimLeftSuffix(s: string, c: char)
    requires Without(s, c)
    ensures Without(TrimLeft(s), c)
  {
    if s != "" && Space(s[0]) {
      TrimLeftSuffix(s[1..], c);
    }
  }

  /** A parsed name survives a second parse unchanged, and cannot contain the separator. */
  lemma NameIsFixed(part: string)
    ensures Name(Name(part)) == Name(part)
    ensures Without(part, ';') ==> Without(Name(part), ';')
  {
    TrimIsTight(part);
    LowerKeeps(Trim(part));
    TrimIsTight(Name(part));
    if Without(part, ';') {
      TrimLeftSuffix(part, ';');
      TrimRightEnds(TrimLeft(part));
    }
  }

  lemma {:induction false} NamesMembers(parts: seq<string>, x: string)
    ensures x in NamesOf(parts) <==> x != "" && exists i :: 0 <= i < |parts| && Name(parts[i]) == x
  {
    if parts != [] {
      NamesMembers(parts[..|parts| - 1], x);
    }
  }

  lemma {:induction false} NamesOfFixed(names: seq<string>)
    requires forall i :: 0 <= i < |names| ==> names[i] != "" && Name(names[i]) == names[i]
    ensures forall x :: x in NamesOf(names) <==> x in names
  {
    forall x ensures x in NamesOf(names) <==> x in names {
      NamesMembers(names, x);
    }
  }

  /** What the parser makes of a part. */
  lemma ParsedNames(raw: string, x: string)
    requires x in Names(raw)
    ensures x != "" && Name(x) == x && Without(x, ';')
  {
    var parts := Split(raw, ';');
    NamesMembers(parts, x);
    var i :| 0 <= i < |parts| && Name(parts[i]) == x;
    SplitParts(raw, ';', i);
    NameIsFixed(parts[i]);
  }

  lemma ListIsIncreasing(names: set<string>)
    ensures var list := Sorting(names); forall i, j :: 0 <= i < j < |list| ==> Leq(list[i], list[j]) && list[i] != list[j]
  {
    SetSequenceIsDistinct(Sorting(names), names);
    assert forall x :: Itself(x) == x;
  }

  lemma ListDeterminesNames(a: set<string>, b: set<string>)
    requires Sorting(a) == Sorting(b)
    ensures a == b
  {
    forall x ensures x in a <==> x in b {
      SortingMembers(a, x);
      SortingMembers(b, x);
    }
  }

  lemma JoinedListParsesBack(raw: string)
    ensures Names(Join(Sorting(Names(raw)), ';')) == Names(raw)
  {
    var list := Sorting(Names(raw));
    forall i | 0 <= i < |list| ensures list[i] != "" && Name(list[i]) == list[i] && Without(list[i], ';') {
      SortingMembers(Names(raw), list[i]);
      ParsedNames(raw, list[i]);
    }
    JoinedNames(list);
    forall x ensures x in Names(Join(list, ';')) <==> x in Names(raw) {
      SortingMembers(Names(raw), x);
    }
  }

  /** The parsed list is strictly increasing, it determines and is determined by the set of names, and
      joining and parsing it again gives it back. */
  lemma SignedHeadersAreNormalForm(raw: string, other: string)
    ensures var list := Sorting(Names(raw));
      && (forall i, j :: 0 <= i < j < |list| ==> Leq(list[i], list[j]) && list[i] != list[j])
      && (Sorting(Names(other)) == list <==> Names(other) == Names(raw))
      && Sorting(Names(Join(list, ';'))) == list
  {
    ListIsIncreasing(Names(raw));
    JoinedListParsesBack(raw);
    if Sorting(Names(other)) == Sorting(Names(raw)) {
      ListDeterminesNames(Names(other), Names(raw));
    }
  }

  lemma JoinedNames(list: seq<string>)
    requires forall i :: 0 <= i < |list| ==> list[i] != "" && Name(list[i]) == list[i] && Without(list[i], ';')
    ensures forall x :: x in NamesOf(Split(Join(list, ';'), ';')) <==> x in list
  {
    if list == [] {
      assert Split("", ';') == [""] && Name("") == "";
      assert [""][..0] == [];
    } else {
      SplitJoin(list, ';');
      NamesOfFixed(list);
    }
  }

  // ----- the canonical text

  /** Header values by lower-case name. */
  type Headers = map<string, seq<string>>

  predicate BadName(name: string) {
    exists i :: 0 <= i < |name| && (name[i] == ':' || name[i] == '\r' || name[i] == '\n')
  }

  function SingleValue(headers: Headers, name: string): Checked<string> {
    if name !in headers || headers[name] == [] then Err(MissingHeader)
    else if |headers[name]| > 1 then Err(MalformedSignedField)
    else Ok(headers[name][0])
  }

  /** The normalised value of one signed header. */
  function SignedValue(headers: Headers, name: string): Checked<string> {
    if BadName(name) then Err(MalformedSignedField)
    else
      match SingleValue(headers, name)
      case Err(e) => Err(e)
      case Ok(raw) =>
        var value := NormalizeValue(raw);
        if raw == "" || value == "" then Err(MissingHeader) else Ok(value)
  }

  /** A header can be signed iff its name is free of colons and line ends and it occurs once, with a value that
      is more than white space. */
  lemma SignableHeaders(headers: Headers, name: string)
    ensures SignedValue(headers, name).Ok? <==>
      && Without(name, ':') && Without(name, '\r') && Without(name, '\n')
      && name in headers && |headers[name]| == 1 && NormalizeValue(headers[name][0]) != ""
    ensures SignedValue(headers, name).Ok? ==> SignedValue(headers, name).value == NormalizeValue(headers[name][0])
    ensures SignedValue(headers, name) == Err(MalformedSignedField) <==>
      !(Without(name, ':') && Without(name, '\r') && Without(name, '\n')) || (name in headers && |headers[name]| > 1)
    ensures SignedValue(headers, name).Err? ==>
      SignedValue(headers, name).error == MalformedSignedField || SignedValue(headers, name).error == MissingHeader
  {
    if name in headers && headers[name] == [""] {
      assert Fields("") == [];
    }
  }

  datatype Header = Header(name: string, value: string)

  function SignedValues(headers: Headers, signed: seq<string>): Checked<seq<Header>> {
    if signed == [] then Ok([])
    else
      match SignedValues(headers, signed[..|signed| - 1])
      case Err(e) => Err(e)
      case Ok(front) =>
        match SignedValue(headers, signed[|signed| - 1])
        case Err(e) => Err(e)
        case Ok(value) => Ok(front + [Header(signed[|signed| - 1], value)])
  }

  function HeaderLine(h: Header): string {
    h.name + ":" + h.value
  }

  function HeaderLines(headers: seq<Header>): seq<string> {
    seq(|headers|, i requires 0 <= i < |headers| => HeaderLine(headers[i]))
  }

  /** The loop over the signed headers; the first bad one decides the error. */
  method CanonicalHeaders(headers: Headers, signed: seq<string>) returns (r: Checked<string>)
    ensures match SignedValues(headers, signed)
      case Err(e) => r == Err(e)
      case Ok(list) => r == Ok(Join(HeaderLines(list), '\n'))
  {
    var lines: seq<string> := [];
    for i := 0 to |signed|
      invariant SignedValues(headers, signed[..i]).Ok?
      invariant lines == HeaderLines(SignedValues(headers, signed[..i]).value)
    {
      assert signed[..i + 1][..i] == signed[..i];
      match SignedValue(headers, signed[i])
      case Err(e) =>
        ErrorStays(headers, signed, i + 1);
        return Err(e);
      case Ok(value) =>
        lines := lines + [signed[i] + ":" + value];
    }
    assert signed[..|signed|] == signed;
    return Ok(Join(lines, '\n'));
  }

  lemma {:induction false} ErrorStays(headers: Headers, signed: seq<string>, i: nat)
    requires i <= |signed| && SignedValues(headers, signed[..i]).Err?
    ensures SignedValues(headers, signed) == SignedValues(headers, signed[..i])
    decreases |signed|
  {
    if i == |signed| {
      assert signed[..i] == signed;
    } else {
      assert signed[..|signed| - 1][..i] == signed[..i];
      ErrorStays(headers, signed[..|signed| - 1], i);
    }
  }

  /** Everything the signature covers. */
  datatype Covered = Covered(timestamp: string, nonce: string, verb: string, path: string, query: string,
                             headers: seq<Header>, bodyHash: string)

  function NameList(headers: seq<Header>): seq<string> {
    seq(|headers|, i requires 0 <= i < |headers| => headers[i].name)
  }

  function CanonicalText(c: Covered): string {
    Join([ALGORITHM, c.timestamp, c.nonce, c.verb, c.path, c.query,
          Join(HeaderLines(c.headers), '\n'), Join(NameList(c.headers), ';'), c.bodyHash], '\n')
  }

  function ParseHeader(line: string): Header {
    var n := IndexOf(line, ':');
    if n == |line| then Header(line, "") else Header(line[..n], line[n + 1..])
  }

  function ParseHeaders(lines: seq<string>): seq<Header> {
    seq(|lines|, i requires 0 <= i < |lines| => ParseHeader(lines[i]))
  }

  /** Reads a canonical text back. */
  function Parse(text: string): Checked<Covered> {
    var lines := Split(text, '\n');
    var n := |lines|;
    if n < 9 then Err(MalformedSignedField)
    else
      var headers := if lines[n - 2] == "" then [] else ParseHeaders(lines[6..n - 2]);
      Ok(Covered(lines[1], lines[2], lines[3], lines[4], lines[5], headers, lines[n - 1]))
  }

  // ----- the round trip

  lemma JoinNested(front: seq<string>, inner: seq<string>, back: seq<string>, sep: char)
    requires front != [] && inner != [] && back != []
    ensures Join(front + [Join(inner, sep)] + back, sep) == Join(front + inner + back, sep)
  {
    JoinAppend(front + [Join(inner, sep)], back, sep);
    JoinAppend(front, [Join(inner, sep)], sep);
    JoinAppend(front + inner, back, sep);
    JoinAppend(front, inner, sep);
  }

  /** A header that fits on a line and can be split at its first colon. */
  ghost predicate LineShaped(h: Header) {
    && h.name != "" && Without(h.name, ':') && Without(h.name, '\n') && Without(h.name, '\r')
    && Without(h.value, '\n') && Without(h.value, '\r')
  }

  lemma HeaderLineParses(h: Header)
    requires LineShaped(h)
    ensures ParseHeader(HeaderLine(h)) == h && Without(HeaderLine(h), '\n')
  {
    var line := HeaderLine(h);
    assert line[|h.name|] == ':';
    assert IndexOf(line, ':') == |h.name|;
    assert line[..|h.name|] == h.name && line[|h.name| + 1..] == h.value;
  }

  ghost predicate OneLiners(c: Covered) {
    && Without(c.timestamp, '\n') && Without(c.nonce, '\n') && Without(c.verb, '\n') && Without(c.path, '\n')
    && Without(c.query, '\n') && Without(c.bodyHash, '\n')
    && forall i :: 0 <= i < |c.headers| ==> LineShaped(c.headers[i])
  }

  /** The lines of the text. No headers still take one empty line. */
  function Lines(c: Covered): seq<string> {
    [ALGORITHM, c.timestamp, c.nonce, c.verb, c.path, c.query]
      + (if c.headers == [] then [""] else HeaderLines(c.headers))
      + [Join(NameList(c.headers), ';'), c.bodyHash]
  }

  lemma LinesAreLines(c: Covered)
    requires OneLiners(c)
    ensures forall i :: 0 <= i < |Lines(c)| ==> Without(Lines(c)[i], '\n')
  {
    forall i | 0 <= i < |c.headers| ensures Without(HeaderLines(c.headers)[i], '\n') {
      HeaderLineParses(c.headers[i]);
    }
    JoinWithout(NameList(c.headers), ';', '\n');
    assert Without(ALGORITHM, '\n');
  }

  /** The parser recovers every part from the canonical text. */
  lemma RoundTrip(c: Covered)
    requires OneLiners(c)
    ensures Parse(CanonicalText(c)) == Ok(c)
  {
    var front := [ALGORITHM, c.timestamp, c.nonce, c.verb, c.path, c.query];
    var back := [Join(NameList(c.headers), ';'), c.bodyHash];
    var inner := if c.headers == [] then [""] else HeaderLines(c.headers);
    assert [ALGORITHM, c.timestamp, c.nonce, c.verb, c.path, c.query, Join(inner, '\n'), Join(NameList(c.headers), ';'), c.bodyHash]
        == front + [Join(inner, '\n')] + back;
    JoinNested(front, inner, back, '\n');
    LinesAreLines(c);
    SplitJoin(Lines(c), '\n');
    var n := |Lines(c)|;
    assert Lines(c)[6..n - 2] == inner && Lines(c)[n - 2] == back[0] && Lines(c)[n - 1] == back[1];
    if c.headers != [] {
      forall i | 0 <= i < |inner| ensures ParseHeader(inner[i]) == c.headers[i] {
        HeaderLineParses(c.headers[i]);
      }
      assert ParseHeaders(inner) == c.headers;
      assert NameList(c.headers)[0] != "";
    }
  }

  lemma {:induction false} SignedValuesAreLineShaped(headers: Headers, signed: seq<string>, i: nat)
    requires SignedValues(headers, signed).Ok? && i < |signed|
    ensures var list := SignedValues(headers, signed).value;
      |list| == |signed| && list[i].name == signed[i] && (signed[i] != "" ==> LineShaped(list[i])) && SignedValue(headers, signed[i]) == Ok(list[i].value)
  {
    var n := |signed| - 1;
    if i < n {
      SignedValuesAreLineShaped(headers, signed[..n], i);
    } else {
      NormalizedIsOneLine(headers[signed[n]][0]);
      if n > 0 {
        SignedValuesAreLineShaped(headers, signed[..n], 0);
      }
    }
  }

  // ----- the request

  datatype Request = Request(verb: string, path: string, query: Query.Values, headers: Headers, bodyHash: string)

  ghost predicate PlainRequest(r: Request, timestamp: string, nonce: string) {
    && Without(timestamp, '\n') && Without(nonce, '\n') && Without(r.verb, '\n') && Without(r.path, '\n')
    && Without(r.bodyHash, '\n') && Query.AllBytes(r.query)
  }

  /** What a request presents for signing under a list of signed headers. */
  ghost function Presented(r: Request, signed: seq<string>, timestamp: string, nonce: string): Checked<Covered>
    requires Query.AllBytes(r.query)
  {
    match SignedValues(r.headers, signed)
    case Err(e) => Err(e)
    case Ok(list) => Ok(Covered(timestamp, nonce, r.verb, r.path, Query.Line(r.query), list, r.bodyHash))
  }

  /** The same for the list parsed from a raw header value. */
  ghost function CoveredBy(r: Request, raw: string, timestamp: string, nonce: string): Checked<Covered>
    requires Query.AllBytes(r.query)
  {
    Presented(r, Sorting(Names(raw)), timestamp, nonce)
  }

  lemma {:induction false} NamesAreSigned(headers: Headers, signed: seq<string>)
    requires SignedValues(headers, signed).Ok?
    ensures NameList(SignedValues(headers, signed).value) == signed
  {
    var list := SignedValues(headers, signed).value;
    if signed == [] {
      assert list == [];
    } else {
      SignedValuesAreLineShaped(headers, signed, 0);
      forall i | 0 <= i < |signed| ensures list[i].name == signed[i] {
        SignedValuesAreLineShaped(headers, signed, i);
      }
    }
  }

  method CanonicalRequest(r: Request, signed: seq<string>, timestamp: string, nonce: string) returns (text: Checked<string>)
    requires Query.AllBytes(r.query)
    ensures match Presented(r, signed, timestamp, nonce)
      case Err(e) => text == Err(e)
      case Ok(c) => text == Ok(CanonicalText(c))
  {
    var canonicalHeaders := CanonicalHeaders(r.headers, signed);
    if canonicalHeaders.Err? {
      return canonicalHeaders;
    }
    var query := Query.CanonicalQuery(r.query);
    NamesAreSigned(r.headers, signed);
    return Ok(Join([ALGORITHM, timestamp, nonce, r.verb, r.path, query, canonicalHeaders.value,
                    Join(signed, ';'), r.bodyHash], '\n'));
  }

  lemma CoveredIsOneLiners(r: Request, raw: string, timestamp: string, nonce: string)
    requires PlainRequest(r, timestamp, nonce)
    requires CoveredBy(r, raw, timestamp, nonce).Ok?
    ensures var c := CoveredBy(r, raw, timestamp, nonce).value; OneLiners(c)
  {
    var signed := Sorting(Names(raw));
    var c := CoveredBy(r, raw, timestamp, nonce).value;
    Query.LineHasNoNewline(r.query);
    NamesAreSigned(r.headers, signed);
    forall i | 0 <= i < |c.headers| ensures LineShaped(c.headers[i]) {
      SortingMembers(Names(raw), signed[i]);
      ParsedNames(raw, signed[i]);
      SignedValuesAreLineShaped(r.headers, signed, i);
    }
  }

  /** Same timestamp, nonce, verb, path and body hash, the same query, and the same signed headers with
      the same normalised values. */
  ghost predicate SameCoverage(a: Request, rawA: string, tsA: string, nonceA: string,
                               b: Request, rawB: string, tsB: string, nonceB: string) {
    && tsA == tsB && nonceA == nonceB && a.verb == b.verb && a.path == b.path && a.bodyHash == b.bodyHash
    && Query.SameQuery(a.query, b.query)
    && Names(rawA) == Names(rawB)
    && forall name :: name in Names(rawA) ==> SignedValue(a.headers, name) == SignedValue(b.headers, name)
  }

  lemma SignedValuesByName(a: Headers, b: Headers, signed: seq<string>)
    requires SignedValues(a, signed).Ok? && SignedValues(b, signed).Ok?
    ensures SignedValues(a, signed) == SignedValues(b, signed) <==>
            forall i :: 0 <= i < |signed| ==> SignedValue(a, signed[i]) == SignedValue(b, signed[i])
  {
    var la, lb := SignedValues(a, signed).value, SignedValues(b, signed).value;
    NamesAreSigned(a, signed);
    NamesAreSigned(b, signed);
    assert |la| == |NameList(la)| == |signed| && |lb| == |NameList(lb)| == |signed|;
    forall i | 0 <= i < |signed| ensures la[i] == lb[i] <==> SignedValue(a, signed[i]) == SignedValue(b, signed[i]) {
      SignedValuesAreLineShaped(a, signed, i);
      SignedValuesAreLineShaped(b, signed, i);
    }
  }

  lemma HeadersByName(a: Headers, namesA: set<string>, b: Headers, namesB: set<string>)
    requires SignedValues(a, Sorting(namesA)).Ok? && SignedValues(b, Sorting(namesB)).Ok?
    ensures SignedValues(a, Sorting(namesA)) == SignedValues(b, Sorting(namesB)) <==>
            namesA == namesB && forall name :: name in namesA ==> SignedValue(a, name) == SignedValue(b, name)
  {
    NamesAreSigned(a, Sorting(namesA));
    NamesAreSigned(b, Sorting(namesB));
    if Sorting(namesA) == Sorting(namesB) {
      ListDeterminesNames(namesA, namesB);
      SignedValuesByName(a, b, Sorting(namesA));
      forall name ensures name in Sorting(namesA) <==> name in namesA {
        SortingMembers(namesA, name);
      }
    }
  }

  /** Two requests have the same canonical text exactly when they present the same things. */
  lemma EqualTextsCoverTheSame(a: Request, rawA: string, tsA: string, nonceA: string,
                               b: Request, rawB: string, tsB: string, nonceB: string)
    requires PlainRequest(a, tsA, nonceA) && PlainRequest(b, tsB, nonceB)
    requires Query.HasValues(a.query) && Query.HasValues(b.query)
    requires CoveredBy(a, rawA, tsA, nonceA).Ok? && CoveredBy(b, rawB, tsB, nonceB).Ok?
    ensures CanonicalText(CoveredBy(a, rawA, tsA, nonceA).value) == CanonicalText(CoveredBy(b, rawB, tsB, nonceB).value)
      <==> SameCoverage(a, rawA, tsA, nonceA, b, rawB, tsB, nonceB)
  {
    var ca, cb := CoveredBy(a, rawA, tsA, nonceA).value, CoveredBy(b, rawB, tsB, nonceB).value;
    assert CanonicalText(ca) == CanonicalText(cb) <==> ca == cb by {
      CoveredIsOneLiners(a, rawA, tsA, nonceA);
      CoveredIsOneLiners(b, rawB, tsB, nonceB);
      RoundTrip(ca);
      RoundTrip(cb);
    }
    Query.LineIsNormalForm(a.query, b.query);
    HeadersByName(a.headers, Names(rawA), b.headers, Names(rawB));
  }
}
