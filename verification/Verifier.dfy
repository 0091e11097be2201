/** The HMAC request verifier: which requests it accepts and what an accepted signature pins down. */
module Verifier {
  import opened Clock
  import opened Text
  import opened Wrappers
  import opened Canonical
  import Query

  const CONNECTOR_ID := "x-authrim-connector-id"
  const KEY_ID := "x-authrim-key-id"
  const REQUEST_ID := "x-authrim-request-id"
  const TIMESTAMP := "x-authrim-timestamp"
  const NONCE := "x-authrim-nonce"
  const SIGNED_HEADERS := "x-authrim-signed-headers"
  const SIGNATURE := "x-authrim-signature"

  const REQUIRED: seq<string> := ["content-type", CONNECTOR_ID, KEY_ID, REQUEST_ID, TIMESTAMP, NONCE]

  datatype Key = Key(id: string, secret: string)

  datatype KeySet = KeySet(active: Key, previous: seq<Key>)

  datatype Envelope = Envelope(connectorId: string, keyId: string, requestId: string, timestamp: string,
                               nonce: string, signedHeaders: string, signature: string)

  datatype Verified = Verified(connectorId: string, keyId: string, requestId: string, instant: int, nonce: string)

  /** Keyed hashing and RFC 3339 parsing are given from outside. */
  datatype Oracles = Oracles(sign: (string, string) -> string, instant: string -> Checked<int>)

  ghost predicate Required(names: set<string>) {
    forall i :: 0 <= i < |REQUIRED| ==> REQUIRED[i] in names
  }

  method ContainsAll(headers: seq<string>, required: seq<string>) returns (ok: bool)
    ensures ok <==> forall i :: 0 <= i < |required| ==> required[i] in headers
  {
    var seen: set<string> := {};
    for i := 0 to |headers|
      invariant seen == set h | h in headers[..i]
    {
      seen := seen + {headers[i]};
    }
    assert headers[..|headers|] == headers;
    for i := 0 to |required|
      invariant forall k :: 0 <= k < i ==> required[k] in headers
    {
      if required[i] !in seen {
        return false;
      }
    }
    return true;
  }

  lemma RequiredInSorting(names: set<string>)
    ensures Required(names) <==> forall i :: 0 <= i < |REQUIRED| ==> REQUIRED[i] in Sorting(names)
  {
    forall name ensures name in Sorting(names) <==> name in names {
      SortingMembers(names, name);
    }
  }

  /** The trimmed value of a header that must occur once. */
  function Field(headers: Headers, name: string): Checked<string> {
    match SingleValue(headers, name)
    case Err(e) => Err(e)
    case Ok(raw) => Ok(Trim(raw))
  }

  /** The first failing header decides the error; emptiness is looked at only once all are there. */
  function Envelopes(headers: Headers): Checked<Envelope> {
    var connector := Field(headers, CONNECTOR_ID);
    if connector.Err? then Err(connector.error) else
    var key := Field(headers, KEY_ID);
    if key.Err? then Err(key.error) else
    var request := Field(headers, REQUEST_ID);
    if request.Err? then Err(request.error) else
    var timestamp := Field(headers, TIMESTAMP);
    if timestamp.Err? then Err(timestamp.error) else
    var nonce := Field(headers, NONCE);
    if nonce.Err? then Err(nonce.error) else
    var signed := Field(headers, SIGNED_HEADERS);
    if signed.Err? then Err(signed.error) else
    var signature := Field(headers, SIGNATURE);
    if signature.Err? then Err(signature.error) else
    var e := Envelope(connector.value, key.value, request.value, timestamp.value, nonce.value, signed.value, signature.value);
    if e.connectorId == "" || e.keyId == "" || e.requestId == "" || e.timestamp == "" || e.nonce == ""
       || e.signedHeaders == "" || e.signature == ""
    then Err(MissingHeader) else Ok(e)
  }

  function Lookup(keys: KeySet, id: string): Checked<Key> {
    if keys.active.id == id then Ok(keys.active)
    else if keys.previous != [] && keys.previous[0].id == id then Ok(keys.previous[0])
    else Err(UnknownKey)
  }

  /** What becomes of a request whose header fields are in order. */
  ghost function Judged(keys: KeySet, oracles: Oracles, presented: Checked<Covered>, e: Envelope, now: int): Checked<Verified> {
    if !Required(Names(e.signedHeaders)) then Err(UnsignedHeader)
    else if oracles.instant(e.timestamp).Err? then Err(InvalidTimestamp)
    else if Distance(now, oracles.instant(e.timestamp).value) > SKEW then Err(StaleTimestamp)
    else if Lookup(keys, e.keyId).Err? then Err(UnknownKey)
    else
      match presented
      case Err(error) => Err(error)
      case Ok(c) =>
        if oracles.sign(Lookup(keys, e.keyId).value.secret, CanonicalText(c)) != e.signature then Err(InvalidSignature)
        else Ok(Verified(e.connectorId, e.keyId, e.requestId, oracles.instant(e.timestamp).value, e.nonce))
  }

  /** The verifier's answer; the first check that fails decides the error. */
  ghost function Outcome(keys: KeySet, oracles: Oracles, r: Request, now: int): Checked<Verified>
    requires Query.AllBytes(r.query)
  {
    match Envelopes(r.headers)
    case Err(error) => Err(error)
    case Ok(e) => Judged(keys, oracles, CoveredBy(r, e.signedHeaders, e.timestamp, e.nonce), e, now)
  }

  method Verify(keys: KeySet, oracles: Oracles, r: Request, now: int) returns (result: Checked<Verified>)
    requires Query.AllBytes(r.query)
    ensures result == Outcome(keys, oracles, r, now)
  {
    var envelope := Envelopes(r.headers);
    if envelope.Err? {
      return Err(envelope.error);
    }
    var e := envelope.value;
    var signed := ParseSignedHeaders(e.signedHeaders);
    RequiredInSorting(Names(e.signedHeaders));
    var complete := ContainsAll(signed, REQUIRED);
    if !complete {
      return Err(UnsignedHeader);
    }
    var instant := oracles.instant(e.timestamp);
    if instant.Err? {
      return Err(InvalidTimestamp);
    }
    if Distance(now, instant.value) > SKEW {
      return Err(StaleTimestamp);
    }
    var key := Lookup(keys, e.keyId);
    if key.Err? {
      return Err(key.error);
    }
    var canonical := CanonicalRequest(r, signed, e.timestamp, e.nonce);
    if canonical.Err? {
      return Err(canonical.error);
    }
    if oracles.sign(key.value.secret, canonical.value) != e.signature {
      return Err(InvalidSignature);
    }
    return Ok(Verified(e.connectorId, e.keyId, e.requestId, instant.value, e.nonce));
  }

  // ----- trimming does not change the normalised value

  lemma {:induction false} TrimLeftEnd(s: string, c: char)
    requires Space(c)
    ensures TrimLeft(s + [c]) == if TrimLeft(s) == "" then "" else TrimLeft(s) + [c]
  {
    if s == "" {
      assert (s + [c])[1..] == "";
    } else if Space(s[0]) {
      assert (s + [c])[1..] == s[1..] + [c];
      TrimLeftEnd(s[1..], c);
    }
  }

  lemma {:induction false} RunEnd(s: string, c: char)
    requires Space(c)
    ensures Run(s + [c]) == Run(s)
  {
    if s != "" && !Space(s[0]) {
      assert (s + [c])[1..] == s[1..] + [c];
      RunEnd(s[1..], c);
    }
  }

  lemma {:induction false} FieldsEnd(s: string, c: char)
    requires Space(c)
    ensures Fields(s + [c]) == Fields(s)
    decreases |s|
  {
    var t := TrimLeft(s);
    TrimLeftShrinks(s);
    TrimLeftEnd(s, c);
    if t != "" {
      var n := Run(t);
      RunEnd(t, c);
      assert (t + [c])[..n] == t[..n] && (t + [c])[n..] == t[n..] + [c];
      FieldsEnd(t[n..], c);
    }
  }

  lemma {:induction false} FieldsTrimRight(s: string)
    ensures Fields(TrimRight(s)) == Fields(s)
  {
    if s != "" && Space(s[|s| - 1]) {
      var n := |s| - 1;
      FieldsTrimRight(s[..n]);
      FieldsEnd(s[..n], s[n]);
      assert s == s[..n] + [s[n]];
    }
  }

  lemma {:induction false} TrimLeftTwice(s: string)
    ensures TrimLeft(TrimLeft(s)) == TrimLeft(s)
  {
    TrimLeftShrinks(s);
  }

  lemma NormalizeTrim(s: string)
    ensures NormalizeValue(Trim(s)) == NormalizeValue(s)
  {
    FieldsTrimRight(TrimLeft(s));
    TrimLeftTwice(s);
  }

  // ----- what a signature pins down

  lemma RequiredIdentifiers(names: set<string>)
    requires Required(names)
    ensures CONNECTOR_ID in names && KEY_ID in names && REQUEST_ID in names
  {
    assert REQUIRED[1] in names && REQUIRED[2] in names && REQUIRED[3] in names;
  }

  ghost predicate CarriesIdentifiers(headers: Headers, e: Envelope) {
    && Field(headers, CONNECTOR_ID) == Ok(e.connectorId)
    && Field(headers, KEY_ID) == Ok(e.keyId)
    && Field(headers, REQUEST_ID) == Ok(e.requestId)
  }

  lemma EnvelopeFields(headers: Headers)
    requires Envelopes(headers).Ok?
    ensures CarriesIdentifiers(headers, Envelopes(headers).value)
  {
  }

  lemma SignedFieldIsNormal(headers: Headers, names: set<string>, name: string)
    requires name in names && SignedValues(headers, Sorting(names)).Ok? && Field(headers, name).Ok?
    ensures SignedValue(headers, name) == Ok(NormalizeValue(Field(headers, name).value))
  {
    SortingMembers(names, name);
    var i :| 0 <= i < |Sorting(names)| && Sorting(names)[i] == name;
    SignedValuesAreLineShaped(headers, Sorting(names), i);
    NormalizeTrim(SingleValue(headers, name).value);
  }

  /** The identifiers of an accepted request, as its signature covers them. */
  ghost predicate Signed(headers: Headers, v: Verified) {
    && SignedValue(headers, CONNECTOR_ID) == Ok(NormalizeValue(v.connectorId))
    && SignedValue(headers, KEY_ID) == Ok(NormalizeValue(v.keyId))
    && SignedValue(headers, REQUEST_ID) == Ok(NormalizeValue(v.requestId))
  }

  lemma IdentifiersAreSigned(headers: Headers, e: Envelope, names: set<string>)
    requires Required(names) && SignedValues(headers, Sorting(names)).Ok? && CarriesIdentifiers(headers, e)
    ensures SignedValue(headers, CONNECTOR_ID) == Ok(NormalizeValue(e.connectorId))
    ensures SignedValue(headers, KEY_ID) == Ok(NormalizeValue(e.keyId))
    ensures SignedValue(headers, REQUEST_ID) == Ok(NormalizeValue(e.requestId))
  {
    RequiredIdentifiers(names);
    SignedFieldIsNormal(headers, names, CONNECTOR_ID);
    SignedFieldIsNormal(headers, names, KEY_ID);
    SignedFieldIsNormal(headers, names, REQUEST_ID);
  }

  /** An identifier without white space; the signature covers any other only up to white space inside it. */
  ghost predicate Word(id: string) {
    id != "" && forall i :: 0 <= i < |id| ==> !Space(id[i])
  }

  ghost predicate Words(v: Verified) {
    Word(v.connectorId) && Word(v.keyId) && Word(v.requestId)
  }

  lemma WordsAreNormal(id: string)
    requires Word(id)
    ensures NormalizeValue(id) == id
  {
    RunOfWord(id);
    assert id[..|id|] == id && id[|id|..] == "";
    assert Fields("") == [];
    assert Fields(id) == [id];
  }

  lemma {:induction false} RunOfWord(id: string)
    requires forall i :: 0 <= i < |id| ==> !Space(id[i])
    ensures Run(id) == |id|
  {
    if id != "" {
      RunOfWord(id[1..]);
    }
  }

  /** The identifiers agree up to white space inside them, and exactly when they have none. */
  ghost predicate SameIdentity(a: Verified, b: Verified) {
    && a.instant == b.instant && a.nonce == b.nonce
    && NormalizeValue(a.connectorId) == NormalizeValue(b.connectorId)
    && NormalizeValue(a.keyId) == NormalizeValue(b.keyId)
    && NormalizeValue(a.requestId) == NormalizeValue(b.requestId)
    && (Words(a) && Words(b) ==> a == b)
  }

  lemma SignedMeansSame(a: Headers, va: Verified, b: Headers, vb: Verified)
    requires Signed(a, va) && Signed(b, vb) && va.instant == vb.instant && va.nonce == vb.nonce
    requires SignedValue(a, CONNECTOR_ID) == SignedValue(b, CONNECTOR_ID)
    requires SignedValue(a, KEY_ID) == SignedValue(b, KEY_ID)
    requires SignedValue(a, REQUEST_ID) == SignedValue(b, REQUEST_ID)
    ensures SameIdentity(va, vb)
  {
    if Words(va) && Words(vb) {
      WordsAreNormal(va.connectorId);
      WordsAreNormal(va.keyId);
      WordsAreNormal(va.requestId);
      WordsAreNormal(vb.connectorId);
      WordsAreNormal(vb.keyId);
      WordsAreNormal(vb.requestId);
    }
  }

  /** The request is free of line feeds where the text has line feeds of its own, and every query key has a value. */
  ghost predicate WellFormed(r: Request) {
    && Query.HasValues(r.query) && Envelopes(r.headers).Ok?
    && PlainRequest(r, Envelopes(r.headers).value.timestamp, Envelopes(r.headers).value.nonce)
  }

  /** What acceptance says of a request with a given envelope. */
  ghost predicate AcceptedAs(keys: KeySet, oracles: Oracles, r: Request, e: Envelope, v: Verified)
    requires Query.AllBytes(r.query)
  {
    && CarriesIdentifiers(r.headers, e) && Required(Names(e.signedHeaders))
    && v.connectorId == e.connectorId && v.keyId == e.keyId && v.requestId == e.requestId && v.nonce == e.nonce
    && oracles.instant(e.timestamp) == Ok(v.instant)
    && CoveredBy(r, e.signedHeaders, e.timestamp, e.nonce).Ok?
    && Lookup(keys, e.keyId).Ok?
    && e.signature == oracles.sign(Lookup(keys, e.keyId).value.secret,
                                   CanonicalText(CoveredBy(r, e.signedHeaders, e.timestamp, e.nonce).value))
  }

  lemma AcceptanceMeans(keys: KeySet, oracles: Oracles, r: Request, now: int)
    requires Query.AllBytes(r.query) && Outcome(keys, oracles, r, now).Ok?
    ensures Envelopes(r.headers).Ok?
    ensures AcceptedAs(keys, oracles, r, Envelopes(r.headers).value, Outcome(keys, oracles, r, now).value)
  {
    EnvelopeFields(r.headers);
  }

  /** The text a request with a given envelope has signed, and the secret it is signed with. */
  ghost function SignedText(r: Request, e: Envelope): string
    requires Query.AllBytes(r.query) && CoveredBy(r, e.signedHeaders, e.timestamp, e.nonce).Ok?
  {
    CanonicalText(CoveredBy(r, e.signedHeaders, e.timestamp, e.nonce).value)
  }

  lemma AcceptedIsTimely(keys: KeySet, oracles: Oracles, r: Request, now: int, v: Verified)
    requires Query.AllBytes(r.query) && Outcome(keys, oracles, r, now) == Ok(v)
    ensures Distance(now, v.instant) <= SKEW
  {
  }

  lemma EqualTexts(keys: KeySet, oracles: Oracles, a: Request, ea: Envelope, va: Verified,
                   b: Request, eb: Envelope, vb: Verified)
    requires Query.HasValues(a.query) && Query.HasValues(b.query)
    requires PlainRequest(a, ea.timestamp, ea.nonce) && PlainRequest(b, eb.timestamp, eb.nonce)
    requires AcceptedAs(keys, oracles, a, ea, va) && AcceptedAs(keys, oracles, b, eb, vb)
    requires SignedText(a, ea) == SignedText(b, eb)
    ensures SameCoverage(a, ea.signedHeaders, ea.timestamp, ea.nonce, b, eb.signedHeaders, eb.timestamp, eb.nonce)
    ensures SameIdentity(va, vb)
  {
    EqualTextsCoverTheSame(a, ea.signedHeaders, ea.timestamp, ea.nonce, b, eb.signedHeaders, eb.timestamp, eb.nonce);
    RequiredIdentifiers(Names(ea.signedHeaders));
    IdentifiersAreSigned(a.headers, ea, Names(ea.signedHeaders));
    IdentifiersAreSigned(b.headers, eb, Names(eb.signedHeaders));
    SignedMeansSame(a.headers, va, b.headers, vb);
  }

  /** An accepted request together with what was read from it. */
  ghost predicate Accepted(keys: KeySet, oracles: Oracles, r: Request, now: int, v: Verified) {
    WellFormed(r) && Outcome(keys, oracles, r, now) == Ok(v)
  }

  /** The two accepted requests have different canonical texts with one and the same keyed hash. */
  ghost predicate Collide(keys: KeySet, oracles: Oracles, a: Request, b: Request) {
    && WellFormed(a) && WellFormed(b)
    && var ea, eb := Envelopes(a.headers).value, Envelopes(b.headers).value;
    && Lookup(keys, ea.keyId).Ok? && CoveredBy(a, ea.signedHeaders, ea.timestamp, ea.nonce).Ok?
    && Lookup(keys, eb.keyId).Ok? && CoveredBy(b, eb.signedHeaders, eb.timestamp, eb.nonce).Ok?
    && SignedText(a, ea) != SignedText(b, eb)
    && oracles.sign(Lookup(keys, ea.keyId).value.secret, SignedText(a, ea))
         == oracles.sign(Lookup(keys, eb.keyId).value.secret, SignedText(b, eb))
  }

  ghost predicate PresentTheSame(a: Request, b: Request)
    requires WellFormed(a) && WellFormed(b)
  {
    var ea, eb := Envelopes(a.headers).value, Envelopes(b.headers).value;
    SameCoverage(a, ea.signedHeaders, ea.timestamp, ea.nonce, b, eb.signedHeaders, eb.timestamp, eb.nonce)
  }

  /** Two requests accepted under one signature present the same verb, path, query, body hash, timestamp,
      nonce and signed headers, and carry the same identity, or their texts are a collision of the keyed hash. */
  lemma SignatureBindsRequest(keys: KeySet, oracles: Oracles, a: Request, nowA: int, va: Verified, b: Request, nowB: int, vb: Verified)
    requires Accepted(keys, oracles, a, nowA, va) && Accepted(keys, oracles, b, nowB, vb)
    requires Envelopes(a.headers).value.signature == Envelopes(b.headers).value.signature
    ensures Collide(keys, oracles, a, b) || (PresentTheSame(a, b) && SameIdentity(va, vb))
  {
    var ea, eb := Envelopes(a.headers).value, Envelopes(b.headers).value;
    AcceptanceMeans(keys, oracles, a, nowA);
    AcceptanceMeans(keys, oracles, b, nowB);
    if SignedText(a, ea) == SignedText(b, eb) {
      EqualTexts(keys, oracles, a, ea, va, b, eb, vb);
    }
  }

  // ----- a request signed as it should be is accepted

  /** All header fields but the signature, trimmed and not empty. */
  ghost predicate Prepared(headers: Headers, e: Envelope) {
    && CarriesIdentifiers(headers, e)
    && Field(headers, TIMESTAMP) == Ok(e.timestamp) && Field(headers, NONCE) == Ok(e.nonce)
    && Field(headers, SIGNED_HEADERS) == Ok(e.signedHeaders)
    && e.connectorId != "" && e.keyId != "" && e.requestId != "" && e.timestamp != "" && e.nonce != "" && e.signedHeaders != ""
  }

  lemma SignatureIsApart()
    ensures SIGNATURE !in {CONNECTOR_ID, KEY_ID, REQUEST_ID, TIMESTAMP, NONCE, SIGNED_HEADERS}
  {
    assert |SIGNATURE| == 19 && |CONNECTOR_ID| == 22 && |KEY_ID| == 16 && |REQUEST_ID| == 20 && |NONCE| == 15 && |SIGNED_HEADERS| == 24;
    assert SIGNATURE[10] == 's' && TIMESTAMP[10] == 't';
  }

  lemma FieldIgnores(headers: Headers, name: string, other: string, value: seq<string>)
    requires name != other
    ensures Field(headers[other := value], name) == Field(headers, name)
  {
  }

  lemma EnvelopeOfSigned(headers: Headers, e: Envelope, signature: string)
    requires Prepared(headers, e) && signature != "" && Tight(signature)
    ensures Envelopes(headers[SIGNATURE := [signature]]) == Ok(e.(signature := signature))
  {
    SignatureIsApart();
    TrimIsTight(signature);
    FieldIgnores(headers, CONNECTOR_ID, SIGNATURE, [signature]);
    FieldIgnores(headers, KEY_ID, SIGNATURE, [signature]);
    FieldIgnores(headers, REQUEST_ID, SIGNATURE, [signature]);
    FieldIgnores(headers, TIMESTAMP, SIGNATURE, [signature]);
    FieldIgnores(headers, NONCE, SIGNATURE, [signature]);
    FieldIgnores(headers, SIGNED_HEADERS, SIGNATURE, [signature]);
    assert Field(headers[SIGNATURE := [signature]], SIGNATURE) == Ok(signature);
  }

  lemma {:induction false} SignedValuesIgnore(headers: Headers, signed: seq<string>, other: string, value: seq<string>)
    requires other !in signed
    ensures SignedValues(headers[other := value], signed) == SignedValues(headers, signed)
  {
    if signed != [] {
      var n := |signed| - 1;
      SignedValuesIgnore(headers, signed[..n], other, value);
      assert SignedValue(headers[other := value], signed[n]) == SignedValue(headers, signed[n]);
    }
  }

  /** The keys the verifier goes by: the active one, and the previous one under another id. */
  ghost predicate Knows(keys: KeySet, key: Key) {
    key == keys.active || (keys.previous != [] && key == keys.previous[0] && key.id != keys.active.id)
  }

  lemma KnownKeyIsFound(keys: KeySet, key: Key)
    ensures Knows(keys, key) <==> Lookup(keys, key.id) == Ok(key)
  {
  }

  /** What the holder of a key puts into the signature header. */
  ghost function SignatureWith(key: Key, oracles: Oracles, r: Request, e: Envelope): string
    requires Query.AllBytes(r.query) && CoveredBy(r, e.signedHeaders, e.timestamp, e.nonce).Ok?
  {
    oracles.sign(key.secret, CanonicalText(CoveredBy(r, e.signedHeaders, e.timestamp, e.nonce).value))
  }

  /** Signing and verifying fit together: a timely request with the required headers, signed with the active
      key or with the previous one, is accepted with the identifiers it carries. */
  lemma SignedRequestIsAccepted(keys: KeySet, oracles: Oracles, r: Request, e: Envelope, now: int, key: Key)
    requires Query.AllBytes(r.query) && Prepared(r.headers, e)
    requires Required(Names(e.signedHeaders)) && SIGNATURE !in Names(e.signedHeaders)
    requires oracles.instant(e.timestamp).Ok? && Distance(now, oracles.instant(e.timestamp).value) <= SKEW
    requires CoveredBy(r, e.signedHeaders, e.timestamp, e.nonce).Ok?
    requires key == keys.active || (keys.previous != [] && key == keys.previous[0] && key.id != keys.active.id)
    requires e.keyId == key.id
    requires SignatureWith(key, oracles, r, e) != "" && Tight(SignatureWith(key, oracles, r, e))
    ensures Outcome(keys, oracles, r.(headers := r.headers[SIGNATURE := [SignatureWith(key, oracles, r, e)]]), now)
      == Ok(Verified(e.connectorId, e.keyId, e.requestId, oracles.instant(e.timestamp).value, e.nonce))
  {
    var signature := SignatureWith(key, oracles, r, e);
    KnownKeyIsFound(keys, key);
    EnvelopeOfSigned(r.headers, e, signature);
    SortingMembers(Names(e.signedHeaders), SIGNATURE);
    SignedValuesIgnore(r.headers, Sorting(Names(e.signedHeaders)), SIGNATURE, [signature]);
  }

  /** Whatever is accepted names the active key or the previous one and was signed with that key's secret. */
  lemma AcceptedIsSignedWithKnownKey(keys: KeySet, oracles: Oracles, r: Request, now: int)
    returns (key: Key)
    requires Query.AllBytes(r.query) && Outcome(keys, oracles, r, now).Ok?
    ensures Knows(keys, key) && Envelopes(r.headers).Ok? && Envelopes(r.headers).value.keyId == key.id
    ensures var e := Envelopes(r.headers).value;
      && CoveredBy(r, e.signedHeaders, e.timestamp, e.nonce).Ok?
      && e.signature == SignatureWith(key, oracles, r, e)
  {
    AcceptanceMeans(keys, oracles, r, now);
    key := Lookup(keys, Envelopes(r.headers).value.keyId).value;
    KnownKeyIsFound(keys, key);
  }

  // ----- which requests fail, and with what

  /** The six headers every signature must cover. */
  lemma RequiredNamesAre(names: set<string>)
    ensures Required(names) <==>
      && "content-type" in names && "x-authrim-connector-id" in names && "x-authrim-key-id" in names
      && "x-authrim-request-id" in names && "x-authrim-timestamp" in names && "x-authrim-nonce" in names
  {
    assert |REQUIRED| == 6;
    if Required(names) {
      assert REQUIRED[0] in names && REQUIRED[1] in names && REQUIRED[2] in names;
      assert REQUIRED[3] in names && REQUIRED[4] in names && REQUIRED[5] in names;
    }
  }

  /** The headers a request must carry, in the order in which they are read. */
  const CARRIED: seq<string> := [CONNECTOR_ID, KEY_ID, REQUEST_ID, TIMESTAMP, NONCE, SIGNED_HEADERS, SIGNATURE]

  lemma FieldIsTrimmed(headers: Headers, name: string)
    ensures Field(headers, name).Ok? <==> name in headers && |headers[name]| == 1
    ensures Field(headers, name).Ok? ==> Field(headers, name).value == Trim(headers[name][0])
    ensures Field(headers, name).Err? ==>
      Field(headers, name).error == if name in headers && |headers[name]| > 1 then MalformedSignedField else MissingHeader
  {
  }

  /** A request without its headers fails with the first one that does not occur once: malformed if it occurs
      several times, missing otherwise.  If all occur once, any blank one is missing. */
  lemma BrokenEnvelope(headers: Headers, k: nat)
    requires k < |CARRIED| && Field(headers, CARRIED[k]).Err?
    requires forall i :: 0 <= i < k ==> Field(headers, CARRIED[i]).Ok?
    ensures Envelopes(headers) == Err(Field(headers, CARRIED[k]).error)
  {
    assert |CARRIED| == 7;
    assert k > 0 ==> Field(headers, CARRIED[0]).Ok?;
    assert k > 1 ==> Field(headers, CARRIED[1]).Ok?;
    assert k > 2 ==> Field(headers, CARRIED[2]).Ok?;
    assert k > 3 ==> Field(headers, CARRIED[3]).Ok?;
    assert k > 4 ==> Field(headers, CARRIED[4]).Ok?;
    assert k > 5 ==> Field(headers, CARRIED[5]).Ok?;
  }

  lemma CompleteEnvelope(headers: Headers)
    requires forall i :: 0 <= i < |CARRIED| ==> Field(headers, CARRIED[i]).Ok?
    ensures Envelopes(headers).Ok? <==> forall i :: 0 <= i < |CARRIED| ==> Field(headers, CARRIED[i]).value != ""
    ensures Envelopes(headers).Err? ==> Envelopes(headers).error == MissingHeader
    ensures Envelopes(headers).Ok? ==>
      var e := Envelopes(headers).value; Prepared(headers, e) && Field(headers, SIGNATURE) == Ok(e.signature)
  {
    assert |CARRIED| == 7;
    assert Field(headers, CARRIED[0]).Ok? && Field(headers, CARRIED[1]).Ok? && Field(headers, CARRIED[2]).Ok?
        && Field(headers, CARRIED[3]).Ok? && Field(headers, CARRIED[4]).Ok? && Field(headers, CARRIED[5]).Ok?
        && Field(headers, CARRIED[6]).Ok?;
  }

  // ----- identifiers with white space inside

  lemma SplitAtSpace(a: string, c: char, b: string)
    requires Space(c) && a != "" && Space(a[0]) && Fields(a[1..] + [c] + b) == Fields(a[1..]) + Fields(b)
    ensures Fields(a + [c] + b) == Fields(a) + Fields(b)
  {
    FieldsTail(a);
    FieldsTail(a + [c] + b);
    SlicesOfJoined(a, c, b, 1);
  }

  lemma FieldsTail(s: string)
    requires s != "" && Space(s[0])
    ensures Fields(s) == Fields(s[1..])
  {
  }

  lemma SlicesOfJoined(a: string, c: char, b: string, n: nat)
    requires n <= |a|
    ensures (a + [c] + b)[..n] == a[..n] && (a + [c] + b)[n..] == a[n..] + [c] + b
  {
  }

  lemma HeadOfJoined(a: string, c: char, b: string, n: nat)
    requires Space(c) && a != "" && !Space(a[0]) && n == Run(a)
    ensures Fields(a + [c] + b) == [a[..n]] + Fields(a[n..] + [c] + b)
  {
    RunStops(a, c, b);
    FieldsHead(a + [c] + b);
    SlicesOfJoined(a, c, b, n);
  }

  lemma Regroup(x: seq<string>, y: seq<string>, z: seq<string>)
    ensures x + (y + z) == (x + y) + z
  {
  }

  lemma SplitAtWord(a: string, c: char, b: string, n: nat)
    requires Space(c) && a != "" && !Space(a[0]) && n == Run(a) && Fields(a[n..] + [c] + b) == Fields(a[n..]) + Fields(b)
    ensures Fields(a + [c] + b) == Fields(a) + Fields(b)
  {
    HeadOfJoined(a, c, b, n);
    FieldsHead(a);
    Regroup([a[..n]], Fields(a[n..]), Fields(b));
  }

  lemma {:induction false} FieldsSplit(a: string, c: char, b: string)
    requires Space(c)
    ensures Fields(a + [c] + b) == Fields(a) + Fields(b)
    decreases |a|
  {
    if a == "" {
      assert a + [c] + b == [c] + b;
      FieldsSkip(c, b);
    } else if Space(a[0]) {
      FieldsSplit(a[1..], c, b);
      SplitAtSpace(a, c, b);
    } else {
      FieldsSplit(a[Run(a)..], c, b);
      SplitAtWord(a, c, b, Run(a));
    }
  }

  lemma FieldsHead(s: string)
    requires s != "" && !Space(s[0])
    ensures Fields(s) == [s[..Run(s)]] + Fields(s[Run(s)..])
  {
  }

  lemma FieldsSkip(c: char, s: string)
    requires Space(c)
    ensures Fields([c] + s) == Fields(s)
  {
    assert ([c] + s)[1..] == s;
  }

  lemma {:induction false} RunStops(a: string, c: char, b: string)
    requires Space(c)
    ensures Run(a + [c] + b) == Run(a)
  {
    if a != "" && !Space(a[0]) {
      assert (a + [c] + b)[1..] == a[1..] + [c] + b;
      RunStops(a[1..], c, b);
    }
  }

  /** A tight string of one field is that field. */
  lemma OneField(y: string)
    requires Tight(y) && |Fields(y)| == 1
    ensures Fields(y)[0] == y
  {
    var n := Run(y);
    assert TrimLeft(y) == y;
    if n < |y| {
      EndsInField(y[n..]);
    }
    assert y[..|y|] == y;
  }

  lemma {:induction false} EndsInField(s: string)
    requires s != "" && !Space(s[|s| - 1])
    ensures Fields(s) != []
  {
    if Space(s[0]) {
      assert s == [s[0]] + s[1..];
      FieldsSkip(s[0], s[1..]);
      EndsInField(s[1..]);
    }
  }

  /** A joined list without the separator has at most one part. */
  lemma JoinedWord(parts: seq<string>)
    requires Without(Join(parts, ' '), ' ')
    ensures |parts| <= 1
  {
    if |parts| > 1 {
      assert Join(parts, ' ')[|parts[0]|] == ' ';
    }
  }

  lemma WordHasOneSpelling(x: string, y: string)
    requires Word(x) && Tight(y) && NormalizeValue(y) == NormalizeValue(x)
    ensures y == x
  {
    WordsAreNormal(x);
    assert !Space(' ') || Without(x, ' ');
    JoinedWord(Fields(y));
    OneField(y);
  }

  /** Another spelling of an identifier: one more space after a space inside it. */
  lemma OtherSpelling(x: string) returns (y: string)
    requires x != "" && Tight(x) && !Word(x)
    ensures y != x && y != "" && Tight(y) && NormalizeValue(y) == NormalizeValue(x)
  {
    var i :| 0 <= i < |x| && Space(x[i]);
    var a, c, b := x[..i], x[i], x[i + 1..];
    assert x == a + [c] + b;
    y := a + [c] + (" " + b);
    FieldsSplit(a, c, b);
    FieldsSplit(a, c, " " + b);
    FieldsSkip(' ', b);
    assert |y| == |x| + 1 && y[0] == x[0];
    assert b != "" ==> y[|y| - 1] == x[|x| - 1];
  }

  /** The signed form of an identifier determines it exactly when it has no white space inside. */
  lemma SignedFormDetermines(x: string)
    requires x != "" && Tight(x)
    ensures (forall y :: Tight(y) && NormalizeValue(y) == NormalizeValue(x) ==> y == x) <==> Word(x)
  {
    if Word(x) {
      forall y | Tight(y) && NormalizeValue(y) == NormalizeValue(x) ensures y == x {
        WordHasOneSpelling(x, y);
      }
    } else {
      var y := OtherSpelling(x);
    }
  }

  /** The request with its request id spelled differently, everything else as it is. */
  function Respelled(r: Request, id: string): Request {
    r.(headers := r.headers[REQUEST_ID := [id]])
  }

  lemma RequestIdIsApart()
    ensures REQUEST_ID !in {CONNECTOR_ID, KEY_ID, TIMESTAMP, NONCE, SIGNED_HEADERS, SIGNATURE}
  {
    assert |REQUEST_ID| == 20 && |CONNECTOR_ID| == 22 && |KEY_ID| == 16 && |TIMESTAMP| == 19 && |NONCE| == 15
        && |SIGNED_HEADERS| == 24 && |SIGNATURE| == 19;
  }

  lemma EnvelopeOfRespelled(r: Request, id: string)
    requires Envelopes(r.headers).Ok? && id != "" && Tight(id)
    ensures Envelopes(Respelled(r, id).headers) == Ok(Envelopes(r.headers).value.(requestId := id))
  {
    RequestIdIsApart();
    TrimIsTight(id);
    FieldIgnores(r.headers, CONNECTOR_ID, REQUEST_ID, [id]);
    FieldIgnores(r.headers, KEY_ID, REQUEST_ID, [id]);
    FieldIgnores(r.headers, TIMESTAMP, REQUEST_ID, [id]);
    FieldIgnores(r.headers, NONCE, REQUEST_ID, [id]);
    FieldIgnores(r.headers, SIGNED_HEADERS, REQUEST_ID, [id]);
    FieldIgnores(r.headers, SIGNATURE, REQUEST_ID, [id]);
    assert Field(Respelled(r, id).headers, REQUEST_ID) == Ok(id);
  }

  lemma {:induction false} SignedValuesAlike(a: Headers, b: Headers, signed: seq<string>)
    requires forall i :: 0 <= i < |signed| ==> SignedValue(a, signed[i]) == SignedValue(b, signed[i])
    ensures SignedValues(a, signed) == SignedValues(b, signed)
  {
    if signed != [] {
      SignedValuesAlike(a, b, signed[..|signed| - 1]);
    }
  }

  lemma RespelledValue(headers: Headers, name: string, id: string)
    requires SignedValue(headers, name) == Ok(NormalizeValue(id)) && id != ""
    ensures SignedValue(headers[name := [id]], name) == SignedValue(headers, name)
  {
  }

  lemma RespelledValues(headers: Headers, names: set<string>, id: string)
    requires SignedValue(headers, REQUEST_ID) == Ok(NormalizeValue(id)) && id != ""
    ensures SignedValues(headers[REQUEST_ID := [id]], Sorting(names)) == SignedValues(headers, Sorting(names))
  {
    RespelledValue(headers, REQUEST_ID, id);
    SignedValuesAlike(headers[REQUEST_ID := [id]], headers, Sorting(names));
  }

  lemma JudgedAlike(keys: KeySet, oracles: Oracles, presented: Checked<Covered>, e: Envelope, now: int, v: Verified, id: string)
    requires Judged(keys, oracles, presented, e, now) == Ok(v)
    ensures Judged(keys, oracles, presented, e.(requestId := id), now) == Ok(v.(requestId := id))
  {
  }

  /** A request accepted with an identifier that can be spelled differently is accepted under the same
      signature with the other spelling. */
  lemma RespelledRequestIsAccepted(keys: KeySet, oracles: Oracles, r: Request, now: int, v: Verified, id: string)
    requires Accepted(keys, oracles, r, now, v) && id != "" && Tight(id) && NormalizeValue(id) == NormalizeValue(v.requestId)
    ensures Accepted(keys, oracles, Respelled(r, id), now, v.(requestId := id))
    ensures Envelopes(Respelled(r, id).headers).value.signature == Envelopes(r.headers).value.signature
  {
    var e := Envelopes(r.headers).value;
    EnvelopeOfRespelled(r, id);
    assert SignedValue(r.headers, REQUEST_ID) == Ok(NormalizeValue(id)) by {
      AcceptanceMeans(keys, oracles, r, now);
      IdentifiersAreSigned(r.headers, e, Names(e.signedHeaders));
    }
    RespelledValues(r.headers, Names(e.signedHeaders), id);
    JudgedAlike(keys, oracles, CoveredBy(r, e.signedHeaders, e.timestamp, e.nonce), e, now, v, id);
  }
}
