/** The admission protocol around a password check, as a step machine.

    Any number of requests run at once over one replay cache, one slot semaphore and one set of storm
    breakers per connector.  Reading the clock and running a locked body are separate steps, so a body
    may work with a stale reading; steps of different requests interleave freely.  The same machine
    covers the HTTP handler and the relay client (a relay client is a configuration with one tenant). */
module Admission {
  import opened Directory
  import opened Audit
  import opened Clock
  import opened Wrappers
  import Metrics
  import Replay
  import Storm

  const TTL: Time := 5 * MINUTE

  datatype Transport = Http | Relay

  datatype Tenant = Tenant(tenantId: string, concurrency: int, protection: Storm.Policy) {
    function Limit(): (n: nat)
      ensures n > 0 && (concurrency > 0 ==> n == concurrency) && (concurrency <= 0 ==> n == 8)
    {
      if concurrency <= 0 then 8 else concurrency
    }

    function RuleFor(kind: Storm.Kind): Storm.Rule {
      Storm.WithDefaults(protection).RuleFor(kind)
    }
  }

  datatype Config = Config(transport: Transport, tenants: map<string, Tenant>)

  /** What a request carries.  `early` and `late` are the verification errors found before and after the
      skew check (headers, key, canonical form, signature); `wellFormed` is the outcome of decoding and
      field validation. */
  datatype Input = Input(
    connector: string, keyId: string, requestId: string, nonce: string, timestamp: Time,
    early: Option<string>, late: Option<string>,
    wellFormed: bool, bodyTenant: string, bodyConnector: string, bodyRequest: string)

  datatype Answer =
    | Refused(code: string, retryable: bool)
    | Verdict(result: string, reason: string, subject: Option<Subject>,
              attributes: map<string, seq<string>>, groupFacts: seq<GroupFact>)

  /** Where a request is.  A reading of `None` means the clock is yet to be read for the coming body. */
  datatype Pc =
    | Arrived
    | Gate(kind: Storm.Kind, reading: Option<Time>)
    | Remember(reading: Option<Time>)
    | Acquire
    | Decode
    | InDirectory
    | Reset(outcome: Outcome)
    | Record(kind: Storm.Kind, reading: Option<Time>)
    | Return
    | Done

  datatype Request = Request(
    input: Input,
    pc: Pc,
    checkedAt: Time,         // clock at the skew check
    place: Option<nat>,      // index of the accepted `Remember` body in the log
    acquired: nat,           // slots taken
    released: nat,           // slots given back
    events: seq<Event>,      // audit events emitted for this request
    reply: Option<Answer>,   // the answer once it is decided
    answers: seq<Answer>,    // answers sent
    heard: Option<Outcome>)  // what the directory returned

  /** Everything the requests share.  `log` and `audit` are histories. */
  datatype Shared = Shared(
    clock: Time,
    entries: Replay.Entries,
    log: seq<Replay.Call>,
    slots: map<string, nat>,
    storms: map<string, Storm.States>,
    audit: seq<Event>,
    counters: Metrics.Counters)

  datatype State = State(shared: Shared, requests: map<nat, Request>)

  // ----- replay keys

  function ReplayKey(cfg: Config, i: Input): string {
    match cfg.transport
    case Http => i.connector + ":" + i.keyId + ":" + i.requestId + ":" + i.nonce
    case Relay => (if i.connector in cfg.tenants then cfg.tenants[i.connector].tenantId else "")
                  + ":" + i.connector + ":" + i.requestId
  }

  // ----- what a step does to the shared state

  datatype StormOp = Keep | Count(kind: Storm.Kind, now: Time) | Clear(kind: Storm.Kind)

  datatype SlotOp = Stay | Take | Give

  /** At most one audit event, one semaphore operation, one breaker operation and one `Remember` body. */
  datatype Effect = Effect(emitted: Option<Event>, slot: SlotOp, storm: StormOp, call: Option<Replay.Call>)

  const SILENT := Effect(None, Stay, Keep, None)

  function BreakerOf(sh: Shared, c: string, kind: Storm.Kind): Storm.State {
    if c in sh.storms then Storm.StateOf(sh.storms[c], kind) else Storm.QUIET
  }

  function StormsAfter(cfg: Config, sh: Shared, c: string, op: StormOp): map<string, Storm.States> {
    if c !in sh.storms || c !in cfg.tenants then sh.storms
    else
      match op
      case Keep => sh.storms
      case Clear(kind) => sh.storms[c := sh.storms[c] - {kind}]
      case Count(kind, now) =>
        var next := Storm.Recorded(cfg.tenants[c].RuleFor(kind), BreakerOf(sh, c, kind), now);
        sh.storms[c := sh.storms[c][kind := next]]
  }

  function SlotsAfter(sh: Shared, c: string, op: SlotOp): map<string, nat> {
    if c !in sh.slots then sh.slots
    else
      match op
      case Stay => sh.slots
      case Take => sh.slots[c := sh.slots[c] + 1]
      case Give => sh.slots[c := if sh.slots[c] > 0 then sh.slots[c] - 1 else 0]
  }

  function Perform(cfg: Config, sh: Shared, c: string, e: Effect): Shared {
    Shared(
      sh.clock,
      if e.call.Some? then Replay.Remembered(sh.entries, TTL, e.call.value.key, e.call.value.now) else sh.entries,
      if e.call.Some? then sh.log + [e.call.value] else sh.log,
      SlotsAfter(sh, c, e.slot),
      StormsAfter(cfg, sh, c, e.storm),
      if e.emitted.Some? then sh.audit + [e.emitted.value] else sh.audit,
      if e.emitted.Some? && cfg.transport.Http? then Metrics.Recorded(sh.counters, e.emitted.value) else sh.counters)
  }

  // ----- endings

  function ErrorEvent(eventType: EventType, tenantId: string, connector: string, code: string, retryable: bool): Event {
    Event(eventType, tenantId, connector, "error", "", code, retryable)
  }

  /** Emits the audit event and fixes the answer; HTTP answers at once, the relay on return. */
  function Decide(cfg: Config, r: Request, e: Event, a: Answer, pc: Pc): (Effect, Request) {
    (SILENT.(emitted := Some(e)),
     r.(events := r.events + [e], reply := Some(a),
        answers := if cfg.transport.Http? then r.answers + [a] else r.answers, pc := pc))
  }

  function Refuse(cfg: Config, r: Request, eventType: EventType, code: string, retryable: bool, pc: Pc): (Effect, Request) {
    var c := r.input.connector;
    var tenantId := if c in cfg.tenants then cfg.tenants[c].tenantId else "";
    Decide(cfg, r, ErrorEvent(eventType, tenantId, if c in cfg.tenants then c else "unknown", code, retryable),
           Refused(code, retryable), pc)
  }

  datatype Conclusion = Conclusion(event: Event, answer: Answer, fault: bool)

  function HttpConclusion(tenantId: string, connector: string, o: Outcome): Conclusion {
    if o.Failure? then
      var code := ErrorCode(o.error);
      Conclusion(ErrorEvent(VerifyError, tenantId, connector, code, true), Refused(code, true), true)
    else if o.result.Credential() == SOURCE_UNAVAILABLE then
      var code := o.result.SafeReason();
      Conclusion(ErrorEvent(VerifyError, tenantId, connector, code, true), Refused(code, true), true)
    else if o.result.Credential() != SUCCESS then
      var reason := o.result.SafeReason();
      Conclusion(Event(VerifyFailure, tenantId, connector, o.result.Credential(), reason, "", false),
                 Verdict(o.result.Credential(), reason, None, map[], []), false)
    else
      Conclusion(Event(VerifySuccess, tenantId, connector, SUCCESS, "", "", false),
                 Verdict(SUCCESS, "", Some(o.result.subject), o.result.attributes, o.result.groupFacts), false)
  }

  /** The relay builds one response for every verdict and completes it on success. */
  function RelayConclusion(tenantId: string, connector: string, o: Outcome): Conclusion {
    match o
    case Failure(e) =>
      Conclusion(ErrorEvent(VerifyError, tenantId, connector, ErrorCode(e), true), Refused(ErrorCode(e), true), true)
    case Returned(res) =>
      var credential := res.Credential();
      if credential == SOURCE_UNAVAILABLE then
        Conclusion(ErrorEvent(VerifyError, tenantId, connector, res.SafeReason(), true),
                   Refused(res.SafeReason(), true), true)
      else
        var response := Verdict(credential, res.SafeReason(), None, map[], []);
        if credential == SUCCESS then
          Conclusion(Event(VerifySuccess, tenantId, connector, SUCCESS, "", "", false),
                     response.(reason := "", subject := Some(res.subject), attributes := res.attributes,
                               groupFacts := res.groupFacts), false)
        else
          Conclusion(Event(VerifyFailure, tenantId, connector, credential, res.SafeReason(), "", false), response, false)
  }

  function Conclude(cfg: Config, r: Request, o: Outcome): Conclusion {
    var c := r.input.connector;
    var tenantId := if c in cfg.tenants then cfg.tenants[c].tenantId else "";
    if cfg.transport.Http? then HttpConclusion(tenantId, c, o) else RelayConclusion(tenantId, c, o)
  }

  /** For the same directory outcome both transports give the same verdict, reason, error code and
      breaker update; only a success carries a subject, attributes or group facts. */
  lemma ConclusionsAgree(tenantId: string, connector: string, o: Outcome)
    ensures HttpConclusion(tenantId, connector, o) == RelayConclusion(tenantId, connector, o)
    ensures HttpConclusion(tenantId, connector, o).fault == o.IsFault()
    ensures Matches(HttpConclusion(tenantId, connector, o).event, HttpConclusion(tenantId, connector, o).answer)
  {
  }

  /** The audit event and the answer tell the same story. */
  predicate Matches(e: Event, a: Answer) {
    match a
    case Refused(code, retryable) =>
      e.result == "error" && e.errorCode == code && e.retryable == retryable && e.eventType != VerifySuccess
    case Verdict(result, reason, subject, attributes, groupFacts) =>
      && e.result == result && e.reason == reason && e.errorCode == "" && !e.retryable
      && (e.eventType == VerifySuccess <==> result == SUCCESS)
      && (subject.Some? <==> result == SUCCESS)
      && (result != SUCCESS ==> attributes == map[] && groupFacts == [])
  }

  function StormCode(kind: Storm.Kind): string {
    match kind
    case MalformedRequest => "malformed_request_storm_limited"
    case ReplayAttempt => "replay_storm_limited"
    case DirectoryError => "directory_error_storm_limited"
  }

  // ----- the steps of one request

  /** HTTP: tenant lookup and HMAC verification.  Relay: message validation. */
  function Enter(cfg: Config, sh: Shared, r: Request): (Effect, Request) {
    var i := r.input;
    if cfg.transport.Relay? then
      (SILENT, r.(pc := Gate(if i.wellFormed then Storm.ReplayAttempt else Storm.MalformedRequest, None)))
    else if i.connector !in cfg.tenants then
      Refuse(cfg, r, VerifyError, "unknown_connector", false, Return)
    else if i.early.Some? then
      Refuse(cfg, r, if i.early.value == "payload_too_large" then VerifyError else HmacFailure, i.early.value, false, Return)
    else if Distance(sh.clock, i.timestamp) > SKEW then
      Refuse(cfg, r, HmacFailure, "stale_hmac_timestamp", false, Return)
    else if i.late.Some? then
      Refuse(cfg, r, HmacFailure, i.late.value, false, Return)
    else
      (SILENT, r.(checkedAt := sh.clock, pc := Gate(Storm.ReplayAttempt, None)))
  }

  function PassGate(cfg: Config, sh: Shared, r: Request, kind: Storm.Kind, now: Time): (Effect, Request) {
    if Storm.IsBlocked(BreakerOf(sh, r.input.connector, kind), now) then
      Refuse(cfg, r, VerifyError, StormCode(kind), true, Return)
    else
      match kind
      case ReplayAttempt => (SILENT, r.(pc := Remember(None)))
      case DirectoryError => (SILENT, r.(pc := InDirectory))
      case MalformedRequest =>
        if cfg.transport.Http? then (SILENT, r.(pc := Decode))
        else Refuse(cfg, r, VerifyError, "invalid_relay_request", false, Record(Storm.MalformedRequest, None))
  }

  function RememberBody(cfg: Config, sh: Shared, r: Request, now: Time): (Effect, Request) {
    var key := ReplayKey(cfg, r.input);
    var call := Replay.Call(key, now, sh.clock);
    if Replay.Accepts(sh.entries, key, now) then
      (SILENT.(call := Some(call)), r.(place := Some(|sh.log|), pc := Acquire))
    else
      var (e, r') := Refuse(cfg, r, ReplayDetected, "replay_detected", false, Record(Storm.ReplayAttempt, None));
      (e.(call := Some(call)), r')
  }

  function TakeSlot(cfg: Config, sh: Shared, r: Request): (Effect, Request) {
    var c := r.input.connector;
    if c in sh.slots && c in cfg.tenants && sh.slots[c] < cfg.tenants[c].Limit() then
      (SILENT.(slot := Take),
       r.(acquired := r.acquired + 1,
          pc := Gate(if cfg.transport.Http? then Storm.MalformedRequest else Storm.DirectoryError, None)))
    else
      Refuse(cfg, r, VerifyError, "connector_rate_limited", true, Return)
  }

  function DecodeBody(cfg: Config, r: Request): (Effect, Request) {
    var i := r.input;
    if !i.wellFormed then
      Refuse(cfg, r, VerifyError, "malformed_request", false, Record(Storm.MalformedRequest, None))
    else if i.connector !in cfg.tenants || i.bodyTenant != cfg.tenants[i.connector].tenantId
            || i.bodyConnector != i.connector || i.bodyRequest != i.requestId then
      Decide(cfg, r, ErrorEvent(VerifyError, i.bodyTenant, i.bodyConnector, "tenant_connector_mismatch", false),
             Refused("tenant_connector_mismatch", false), Return)
    else
      (SILENT, r.(pc := Gate(Storm.DirectoryError, None)))
  }

  function DirectoryReturns(cfg: Config, r: Request, o: Outcome): (Effect, Request) {
    var con := Conclude(cfg, r, o);
    var r := r.(heard := Some(o));
    if con.fault then
      Decide(cfg, r, con.event, con.answer, Record(Storm.DirectoryError, None))
    else
      (SILENT, r.(pc := Reset(o)))
  }

  /** A returned verdict clears the directory breaker before it is reported. */
  function ClearBreaker(cfg: Config, r: Request, o: Outcome): (Effect, Request) {
    var con := Conclude(cfg, r, o);
    var (e, r') := Decide(cfg, r, con.event, con.answer, Return);
    (e.(storm := Clear(Storm.DirectoryError)), r')
  }

  /** The deferred release, and for the relay the answer itself. */
  function Leave(cfg: Config, r: Request): (Effect, Request) {
    var held := r.acquired > r.released;
    (if held then SILENT.(slot := Give) else SILENT,
     r.(released := if held then r.released + 1 else r.released,
        answers := if cfg.transport.Relay? && r.reply.Some? then r.answers + [r.reply.value] else r.answers,
        pc := Done))
  }

  /** One step of one request.  `o` is what the directory returns, should the step be that return. */
  function Local(cfg: Config, sh: Shared, r: Request, o: Outcome): (Effect, Request) {
    match r.pc
    case Arrived => Enter(cfg, sh, r)
    case Gate(kind, None) => (SILENT, r.(pc := Gate(kind, Some(sh.clock))))
    case Gate(kind, Some(now)) => PassGate(cfg, sh, r, kind, now)
    case Remember(None) => (SILENT, r.(pc := Remember(Some(sh.clock))))
    case Remember(Some(now)) => RememberBody(cfg, sh, r, now)
    case Acquire => TakeSlot(cfg, sh, r)
    case Decode => DecodeBody(cfg, r)
    case InDirectory => DirectoryReturns(cfg, r, o)
    case Reset(outcome) => ClearBreaker(cfg, r, outcome)
    case Record(kind, None) => (SILENT, r.(pc := Record(kind, Some(sh.clock))))
    case Record(kind, Some(now)) => (SILENT.(storm := Count(kind, now)), r.(pc := Return))
    case Return => Leave(cfg, r)
    case Done => (SILENT, r)
  }

  // ----- runs

  datatype Step =
    | Tick(elapsed: Time)
    | Arrive(id: nat, input: Input)
    | Move(id: nat, outcome: Outcome)

  function Fresh(input: Input): Request {
    Request(input, Arrived, 0, None, 0, 0, [], None, [], None)
  }

  /** A step that is not enabled changes nothing. */
  function Apply(cfg: Config, s: State, step: Step): State {
    match step
    case Tick(elapsed) => s.(shared := s.shared.(clock := s.shared.clock + elapsed))
    case Arrive(id, input) =>
      if id in s.requests || (cfg.transport.Relay? && input.connector !in cfg.tenants) then s
      else s.(requests := s.requests[id := Fresh(input)])
    case Move(id, outcome) =>
      if id !in s.requests then s
      else
        var (e, r) := Local(cfg, s.shared, s.requests[id], outcome);
        State(Perform(cfg, s.shared, r.input.connector, e), s.requests[id := r])
  }

  function Init(cfg: Config, start: Time): State {
    State(Shared(start, map[], [], map c | c in cfg.tenants :: 0, map c | c in cfg.tenants :: map[], [], map[]), map[])
  }

  function Run(cfg: Config, s: State, steps: seq<Step>): State {
    if steps == [] then s
    else Apply(cfg, Run(cfg, s, steps[..|steps| - 1]), steps[|steps| - 1])
  }
}
