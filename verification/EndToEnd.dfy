/** The signature check, the replay check and the body check together. */
module EndToEnd {
  import opened Admission
  import opened AdmissionTheorems
  import opened AdmissionVerdicts
  import opened Clock
  import opened Text
  import opened Wrappers
  import Canonical
  import Verifier

  /** The admission machine's view of a request is what verification read from its headers. */
  predicate Carries(i: Input, v: Verifier.Verified) {
    && i.connector == v.connectorId && i.keyId == v.keyId && i.requestId == v.requestId && i.nonce == v.nonce
    && i.timestamp == v.instant
  }

  /** A request as it came in, when it was verified, and what was read from it. */
  datatype Message = Message(request: Canonical.Request, now: int, read: Verifier.Verified)

  ghost predicate VerifiedAs(keys: Verifier.KeySet, oracles: Verifier.Oracles, m: Message, i: Input) {
    Verifier.Accepted(keys, oracles, m.request, m.now, m.read) && Carries(i, m.read)
  }

  ghost predicate OneSignature(a: Message, b: Message)
    requires Verifier.WellFormed(a.request) && Verifier.WellFormed(b.request)
  {
    Verifier.Envelopes(a.request.headers).value.signature == Verifier.Envelopes(b.request.headers).value.signature
  }

  /** If the request got past the replay check, its `Remember` body ran within a minute of its timestamp check. */
  predicate Prompt(s: State, id: nat) {
    Admitted(s, id) ==> AdmittedAt(s, id) <= s.requests[id].checkedAt + (TTL - 2 * SKEW)
  }

  // ----- one signature, one admission

  lemma OneIdentityOneAdmission(cfg: Config, start: Time, steps: seq<Step>, a: nat, b: nat, v: Verifier.Verified)
    requires cfg.transport.Http? && a != b
    requires var s := Run(cfg, Init(cfg, start), steps);
      && a in s.requests && b in s.requests && Prompt(s, a) && Prompt(s, b)
      && Carries(s.requests[a].input, v) && Carries(s.requests[b].input, v)
    ensures var s := Run(cfg, Init(cfg, start), steps); !(Admitted(s, a) && Admitted(s, b))
  {
    AtMostOnce(cfg, start, steps, a, b);
  }

  /** Two requests that verify under one signature are not both admitted promptly, whatever else differs
      between them, unless their texts are a collision of the keyed hash or they spell the same identifiers
      with different white space; the latter cannot be when the identifiers have none. */
  lemma OneSignatureOneAdmission(cfg: Config, start: Time, steps: seq<Step>, a: nat, b: nat,
                                 keys: Verifier.KeySet, oracles: Verifier.Oracles, ma: Message, mb: Message)
    requires cfg.transport.Http? && a != b
    requires var s := Run(cfg, Init(cfg, start), steps);
      && a in s.requests && VerifiedAs(keys, oracles, ma, s.requests[a].input) && Prompt(s, a)
      && b in s.requests && VerifiedAs(keys, oracles, mb, s.requests[b].input) && Prompt(s, b)
    requires OneSignature(ma, mb)
    ensures var s := Run(cfg, Init(cfg, start), steps);
      Admitted(s, a) && Admitted(s, b) ==>
        || Verifier.Collide(keys, oracles, ma.request, mb.request)
        || (ma.read != mb.read && Verifier.SameIdentity(ma.read, mb.read))
  {
    Verifier.SignatureBindsRequest(keys, oracles, ma.request, ma.now, ma.read, mb.request, mb.now, mb.read);
    if ma.read == mb.read {
      OneIdentityOneAdmission(cfg, start, steps, a, b, ma.read);
    }
  }

  // ----- two spellings, two admissions

  function InputOf(v: Verifier.Verified): Input
    requires v.instant >= 0
  {
    Input(v.connectorId, v.keyId, v.requestId, v.nonce, v.instant, None, None, true, "", "", "")
  }

  lemma KeysDiffer(cfg: Config, a: Input, b: Input)
    requires cfg.transport.Http? && a.connector == b.connector && a.keyId == b.keyId && a.nonce == b.nonce
    requires a.requestId != b.requestId
    ensures ReplayKey(cfg, a) != ReplayKey(cfg, b)
  {
    var front, back := a.connector + ":" + a.keyId + ":", ":" + a.nonce;
    assert ReplayKey(cfg, a) == front + a.requestId + back && ReplayKey(cfg, b) == front + b.requestId + back;
    if ReplayKey(cfg, a) == ReplayKey(cfg, b) {
      MiddleIsUnique(front, a.requestId, b.requestId, back);
    }
  }

  lemma MiddleIsUnique(front: string, a: string, b: string, back: string)
    requires front + a + back == front + b + back
    ensures a == b
  {
    var n := |front|;
    assert |a| == |b|;
    assert a == (front + a + back)[n..n + |a|] && b == (front + b + back)[n..n + |b|];
  }

  /** Two different timely requests on an idle connector are both admitted. */
  lemma BothAdmitted(cfg: Config, start: Time, a: Input, b: Input) returns (steps: seq<Step>)
    requires Admissible(cfg, Init(cfg, start).shared, a, 0) && Admissible(cfg, Init(cfg, start).shared, b, 0)
    requires ReplayKey(cfg, a) != ReplayKey(cfg, b)
    ensures var s := Run(cfg, Init(cfg, start), steps);
      && Admitted(s, 0) && s.requests[0].input == a && Prompt(s, 0)
      && Admitted(s, 1) && s.requests[1].input == b && Prompt(s, 1)
  {
    var sh := Init(cfg, start).shared;
    assert sh.(clock := sh.clock + 0) == sh;
    var first := AdmitSteps(cfg, sh, map[], 0, a, 0);
    var sh' := Accepting(cfg, sh, a);
    assert sh'.(clock := sh'.clock + 0) == sh';
    var second := AdmitSteps(cfg, sh', map[0 := AdmittedRequest(sh, a)], 1, b, 0);
    RunAppend(cfg, Init(cfg, start), first, second);
    steps := first + second;
  }

  /** The code does not admit one request per signature in general: whenever a request is accepted whose
      request id can be spelled differently, the respelled request is accepted under the same signature, and
      both are admitted in some run. */
  lemma TwoSpellingsTwoAdmissions(cfg: Config, keys: Verifier.KeySet, oracles: Verifier.Oracles, m: Message, id: string)
    returns (other: Message, steps: seq<Step>)
    requires cfg.transport.Http? && m.now >= 0 && m.read.instant >= 0 && m.read.connectorId in cfg.tenants
    requires Verifier.Accepted(keys, oracles, m.request, m.now, m.read)
    requires id != m.read.requestId && id != "" && Tight(id)
    requires Canonical.NormalizeValue(id) == Canonical.NormalizeValue(m.read.requestId)
    ensures var s := Run(cfg, Init(cfg, m.now), steps);
      && Admitted(s, 0) && VerifiedAs(keys, oracles, m, s.requests[0].input) && Prompt(s, 0)
      && Admitted(s, 1) && VerifiedAs(keys, oracles, other, s.requests[1].input) && Prompt(s, 1)
      && OneSignature(m, other)
  {
    Verifier.RespelledRequestIsAccepted(keys, oracles, m.request, m.now, m.read, id);
    other := Message(Verifier.Respelled(m.request, id), m.now, m.read.(requestId := id));
    Verifier.AcceptedIsTimely(keys, oracles, m.request, m.now, m.read);
    KeysDiffer(cfg, InputOf(m.read), InputOf(other.read));
    steps := BothAdmitted(cfg, m.now, InputOf(m.read), InputOf(other.read));
  }

  lemma TwoSpellings()
    ensures Canonical.NormalizeValue("a  b") == Canonical.NormalizeValue("a b") && Tight("a  b") && "a  b" != "a b"
  {
    Verifier.FieldsSplit("a", ' ', "b");
    Verifier.FieldsSplit("a", ' ', " b");
    Verifier.FieldsSkip(' ', "b");
    assert "a b" == "a" + " " + "b" && "a  b" == "a" + " " + " b" && " b" == " " + "b";
    assert |"a  b"| != |"a b"|;
  }

  /** For instance with one space and with two. */
  lemma SpacedRequestIdIsAdmittedTwice(cfg: Config, keys: Verifier.KeySet, oracles: Verifier.Oracles, m: Message)
    returns (other: Message, steps: seq<Step>)
    requires cfg.transport.Http? && m.now >= 0 && m.read.instant >= 0 && m.read.connectorId in cfg.tenants
    requires Verifier.Accepted(keys, oracles, m.request, m.now, m.read) && m.read.requestId == "a b"
    ensures var s := Run(cfg, Init(cfg, m.now), steps);
      && Admitted(s, 0) && VerifiedAs(keys, oracles, m, s.requests[0].input) && Prompt(s, 0)
      && Admitted(s, 1) && VerifiedAs(keys, oracles, other, s.requests[1].input) && Prompt(s, 1)
      && OneSignature(m, other)
  {
    TwoSpellings();
    other, steps := TwoSpellingsTwoAdmissions(cfg, keys, oracles, m, "a  b");
  }

  // ----- one signature, one directory call

  /** Hashing and decoding of bodies are given from outside. */
  datatype Bodies = Bodies(hash: string -> string, decode: string -> Named)

  datatype Named = Named(connector: string, request: string)

  /** The signed hash is the body's, and the machine sees what the body decodes to. */
  predicate Presents(bodies: Bodies, body: string, m: Message, i: Input) {
    m.request.bodyHash == bodies.hash(body) && bodies.decode(body) == Named(i.bodyConnector, i.bodyRequest)
  }

  predicate BodiesCollide(bodies: Bodies, a: string, b: string) {
    a != b && bodies.hash(a) == bodies.hash(b)
  }

  /** One secret is not configured under two spellings of one key id. */
  predicate KeysApart(keys: Verifier.KeySet) {
    keys.previous != [] && keys.previous[0].secret == keys.active.secret
    && Canonical.NormalizeValue(keys.previous[0].id) == Canonical.NormalizeValue(keys.active.id) ==>
      keys.previous[0].id == keys.active.id
  }

  /** The two configured secrets differ and give this very text the same keyed hash. */
  predicate SecretsCollide(keys: Verifier.KeySet, oracles: Verifier.Oracles, text: string) {
    && keys.previous != [] && keys.previous[0].secret != keys.active.secret
    && oracles.sign(keys.active.secret, text) == oracles.sign(keys.previous[0].secret, text)
  }

  ghost function TextOf(m: Message): string
    requires Verifier.WellFormed(m.request)
    requires var e := Verifier.Envelopes(m.request.headers).value;
      Canonical.CoveredBy(m.request, e.signedHeaders, e.timestamp, e.nonce).Ok?
  {
    Verifier.SignedText(m.request, Verifier.Envelopes(m.request.headers).value)
  }

  /** Under one signature the key ids are the same, collisions aside. */
  lemma OneKeyId(keys: Verifier.KeySet, oracles: Verifier.Oracles, a: Message, b: Message)
    requires Verifier.Accepted(keys, oracles, a.request, a.now, a.read) && Verifier.Accepted(keys, oracles, b.request, b.now, b.read)
    requires OneSignature(a, b) && KeysApart(keys)
    ensures var e := Verifier.Envelopes(a.request.headers).value;
      Canonical.CoveredBy(a.request, e.signedHeaders, e.timestamp, e.nonce).Ok?
    ensures || Verifier.Collide(keys, oracles, a.request, b.request)
            || SecretsCollide(keys, oracles, TextOf(a))
            || a.read.keyId == b.read.keyId
  {
    Verifier.AcceptanceMeans(keys, oracles, a.request, a.now);
    Verifier.AcceptanceMeans(keys, oracles, b.request, b.now);
    Verifier.SignatureBindsRequest(keys, oracles, a.request, a.now, a.read, b.request, b.now, b.read);
  }

  /** What has called the directory is named by its body, and its key id is a configured one. */
  lemma CallsAreNamed(cfg: Config, start: Time, steps: seq<Step>, id: nat, keys: Verifier.KeySet, oracles: Verifier.Oracles,
                      bodies: Bodies, body: string, m: Message)
    requires var s := Run(cfg, Init(cfg, start), steps);
      && cfg.transport.Http? && id in s.requests && Calls(s.requests[id])
      && VerifiedAs(keys, oracles, m, s.requests[id].input) && Presents(bodies, body, m, s.requests[id].input)
    ensures Admitted(Run(cfg, Init(cfg, start), steps), id)
    ensures bodies.decode(body) == Named(m.read.connectorId, m.read.requestId)
  {
    CallsComeAfterChecks(cfg, start, steps);
    var s := Run(cfg, Init(cfg, start), steps);
    assert Passed(cfg, s.requests[id]);
  }

  /** At most one request per signature reaches the directory, however its identifiers are spelled: the
      signature fixes the body, and the body must repeat connector and request id.  Only a collision of the
      keyed hash or of the body hash could change that. */
  lemma OneSignatureOneCall(cfg: Config, start: Time, steps: seq<Step>, a: nat, b: nat,
                            keys: Verifier.KeySet, oracles: Verifier.Oracles, ma: Message, mb: Message,
                            bodies: Bodies, bodyA: string, bodyB: string)
    requires cfg.transport.Http? && a != b && KeysApart(keys)
    requires var s := Run(cfg, Init(cfg, start), steps);
      && a in s.requests && VerifiedAs(keys, oracles, ma, s.requests[a].input) && Prompt(s, a)
      && b in s.requests && VerifiedAs(keys, oracles, mb, s.requests[b].input) && Prompt(s, b)
      && Presents(bodies, bodyA, ma, s.requests[a].input) && Presents(bodies, bodyB, mb, s.requests[b].input)
    requires OneSignature(ma, mb)
    ensures var e := Verifier.Envelopes(ma.request.headers).value;
      Canonical.CoveredBy(ma.request, e.signedHeaders, e.timestamp, e.nonce).Ok?
    ensures var s := Run(cfg, Init(cfg, start), steps);
      Calls(s.requests[a]) && Calls(s.requests[b]) ==>
        || Verifier.Collide(keys, oracles, ma.request, mb.request)
        || SecretsCollide(keys, oracles, TextOf(ma))
        || BodiesCollide(bodies, bodyA, bodyB)
  {
    var s := Run(cfg, Init(cfg, start), steps);
    OneKeyId(keys, oracles, ma, mb);
    if Calls(s.requests[a]) && Calls(s.requests[b]) && bodyA == bodyB {
      CallsAreNamed(cfg, start, steps, a, keys, oracles, bodies, bodyA, ma);
      CallsAreNamed(cfg, start, steps, b, keys, oracles, bodies, bodyB, mb);
      OneSignatureOneAdmission(cfg, start, steps, a, b, keys, oracles, ma, mb);
    } else {
      Verifier.SignatureBindsRequest(keys, oracles, ma.request, ma.now, ma.read, mb.request, mb.now, mb.read);
    }
  }
}
