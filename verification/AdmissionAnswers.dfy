/** What a request is told and when, as a table; and that an honest request gets its verdict. */
module AdmissionAnswers {
  import opened Clock
  import opened Wrappers
  import opened Admission
  import opened AdmissionSafety
  import opened AdmissionTheorems
  import opened AdmissionVerdicts
  import opened Audit
  import opened Directory
  import Replay
  import Storm

  // ----- what the directory's word becomes

  /** The code of a directory that cannot be asked. */
  function FaultCode(e: Error): string {
    if e.DirectoryTLS? then "directory_tls_error"
    else if e.DirectoryUnavailable? then "directory_unavailable"
    else if e.DirectoryReferral? then "directory_referral"
    else "directory_error"
  }

  /** The verdict a result stands for: the one it names, or else success or failure by its flag. */
  function Named(r: Result): string {
    if r.result != "" then r.result else if r.success then "success" else "failure"
  }

  /** The reason given: the result's own, or else one that fits the verdict. */
  function Reason(r: Result): string {
    if r.reason != "" then r.reason
    else if Named(r) == "failure" then "invalid_credentials"
    else if Named(r) == "source_unavailable" then "directory_unavailable"
    else Named(r)
  }

  function Told(o: Outcome): Answer {
    match o
    case Failure(e) => Refused(FaultCode(e), true)
    case Returned(r) =>
      if Named(r) == "source_unavailable" then Refused(Reason(r), true)
      else if Named(r) == "success" then Verdict("success", "", Some(r.subject), r.attributes, r.groupFacts)
      else Verdict(Named(r), Reason(r), None, map[], [])
  }

  function ToldType(o: Outcome): EventType {
    match o
    case Failure(_) => VerifyError
    case Returned(r) =>
      if Named(r) == "source_unavailable" then VerifyError else if Named(r) == "success" then VerifySuccess else VerifyFailure
  }

  lemma ConclusionTells(tenantId: string, connector: string, o: Outcome)
    ensures var con := HttpConclusion(tenantId, connector, o);
      && con.answer == Told(o) && con.event.eventType == ToldType(o)
      && con.event.tenantId == tenantId && con.event.connectorId == connector
  {
    if o.Returned? {
      assert o.result.Credential() == Named(o.result) && o.result.SafeReason() == Reason(o.result);
    }
  }

  // ----- what a request is told at each point

  datatype Ruling = Ruling(eventType: EventType, answer: Answer)

  /** The refusal or verdict given at a program point, by the request's fields and the shared state. */
  function Ruled(cfg: Config, sh: Shared, i: Input, pc: Pc, o: Outcome): Option<Ruling> {
    match pc
    case Arrived =>
      if cfg.transport.Relay? then None
      else if i.connector !in cfg.tenants then Some(Ruling(VerifyError, Refused("unknown_connector", false)))
      else if i.early == Some("payload_too_large") then Some(Ruling(VerifyError, Refused("payload_too_large", false)))
      else if i.early.Some? then Some(Ruling(HmacFailure, Refused(i.early.value, false)))
      else if i.timestamp + 120_000_000_000 < sh.clock || sh.clock + 120_000_000_000 < i.timestamp then
        Some(Ruling(HmacFailure, Refused("stale_hmac_timestamp", false)))
      else if i.late.Some? then Some(Ruling(HmacFailure, Refused(i.late.value, false)))
      else None
    case Gate(kind, Some(now)) =>
      if BreakerOf(sh, i.connector, kind).blockedUntil > now then
        Some(Ruling(VerifyError, Refused(match kind
                                         case MalformedRequest => "malformed_request_storm_limited"
                                         case ReplayAttempt => "replay_storm_limited"
                                         case DirectoryError => "directory_error_storm_limited", true)))
      else if kind.MalformedRequest? && cfg.transport.Relay? then
        Some(Ruling(VerifyError, Refused("invalid_relay_request", false)))
      else None
    case Remember(Some(now)) =>
      var key := ReplayKey(cfg, i);
      if key in sh.entries && now <= sh.entries[key] then Some(Ruling(ReplayDetected, Refused("replay_detected", false))) else None
    case Acquire =>
      if i.connector in sh.slots && i.connector in cfg.tenants && sh.slots[i.connector] < cfg.tenants[i.connector].Limit() then None
      else Some(Ruling(VerifyError, Refused("connector_rate_limited", true)))
    case Decode =>
      if !i.wellFormed then Some(Ruling(VerifyError, Refused("malformed_request", false)))
      else if !BodyFits(cfg, i) then Some(Ruling(VerifyError, Refused("tenant_connector_mismatch", false)))
      else None
    case InDirectory => if Told(o).Refused? then Some(Ruling(VerifyError, Told(o))) else None
    case Reset(outcome) => Some(Ruling(ToldType(outcome), Told(outcome)))
    case _ => None
  }

  /** Events carry the connector's own labels, or the body's for a body that does not fit. */
  predicate Labelled(cfg: Config, i: Input, pc: Pc, e: Event) {
    if pc.Decode? && i.wellFormed then e.tenantId == i.bodyTenant && e.connectorId == i.bodyConnector
    else if i.connector in cfg.tenants then e.tenantId == cfg.tenants[i.connector].tenantId && e.connectorId == i.connector
    else e.tenantId == "" && (e.connectorId == "unknown" || pc.InDirectory? || pc.Reset?)
  }

  /** What a request has been told so far: nothing, or one answer with one event. */
  predicate Heard(cfg: Config, pc: Pc, r: Request, ruling: Option<Ruling>) {
    match ruling
    case None => r.reply == None && r.events == []
    case Some(given) =>
      && r.reply == Some(given.answer)
      && |r.events| == 1 && r.events[0].eventType == given.eventType && Labelled(cfg, r.input, pc, r.events[0])
  }

  lemma EntryIsRuled(cfg: Config, sh: Shared, r: Request, o: Outcome)
    requires AnswerOk(cfg, r) && (r.pc.Arrived? || (r.pc.Gate? && r.pc.reading.Some?))
    ensures Heard(cfg, r.pc, Local(cfg, sh, r, o).1, Ruled(cfg, sh, r.input, r.pc, o))
  {
  }

  lemma MiddleIsRuled(cfg: Config, sh: Shared, r: Request, o: Outcome)
    requires AnswerOk(cfg, r) && ((r.pc.Remember? && r.pc.reading.Some?) || r.pc.Acquire? || r.pc.Decode?)
    ensures Heard(cfg, r.pc, Local(cfg, sh, r, o).1, Ruled(cfg, sh, r.input, r.pc, o))
  {
  }

  lemma DirectoryIsRuled(cfg: Config, sh: Shared, r: Request, o: Outcome)
    requires AnswerOk(cfg, r) && (r.pc.InDirectory? || r.pc.Reset?)
    ensures Heard(cfg, r.pc, Local(cfg, sh, r, o).1, Ruled(cfg, sh, r.input, r.pc, o))
  {
    var c := r.input.connector;
    var tenantId := if c in cfg.tenants then cfg.tenants[c].tenantId else "";
    var outcome := if r.pc.Reset? then r.pc.outcome else o;
    ConclusionTells(tenantId, c, outcome);
    ConclusionsAgree(tenantId, c, outcome);
    FaultsAreRefused(outcome);
  }

  lemma FaultsAreRefused(o: Outcome)
    ensures Told(o).Refused? <==> o.IsFault()
  {
    if o.Returned? {
      assert o.result.Credential() == Named(o.result);
    }
  }

  /** Every step of an undecided request in every run tells it what the table says, and nothing else. */
  lemma AnswersAreRuled(cfg: Config, start: Time, steps: seq<Step>, id: nat, o: Outcome)
    requires var s := Run(cfg, Init(cfg, start), steps); id in s.requests && Undecided(s.requests[id].pc)
    ensures var s := Run(cfg, Init(cfg, start), steps);
      Heard(cfg, s.requests[id].pc, Apply(cfg, s, Move(id, o)).requests[id], Ruled(cfg, s.shared, s.requests[id].input, s.requests[id].pc, o))
  {
    EveryRunIsSafe(cfg, start, steps);
    var s := Run(cfg, Init(cfg, start), steps);
    var r := s.requests[id];
    assert RequestOk(cfg, s.shared.clock, r);
    if r.pc.InDirectory? || r.pc.Reset? {
      DirectoryIsRuled(cfg, s.shared, r, o);
    } else if r.pc.Arrived? || (r.pc.Gate? && r.pc.reading.Some?) {
      EntryIsRuled(cfg, s.shared, r, o);
    } else if (r.pc.Remember? && r.pc.reading.Some?) || r.pc.Acquire? || r.pc.Decode? {
      MiddleIsRuled(cfg, s.shared, r, o);
    }
  }

  // ----- an honest request gets its verdict

  /** Timely and verified over HTTP, well formed on the relay, with an unused key, a free slot, quiet breakers
      and a fitting body. */
  predicate Honest(cfg: Config, sh: Shared, i: Input) {
    && i.connector in cfg.tenants
    && (if cfg.transport.Http? then
          i.early == None && i.late == None && Distance(sh.clock, i.timestamp) <= SKEW && BodyFits(cfg, i)
        else i.wellFormed)
    && Replay.Accepts(sh.entries, ReplayKey(cfg, i), sh.clock)
    && i.connector in sh.slots && sh.slots[i.connector] < cfg.tenants[i.connector].Limit()
    && forall kind :: BreakerOf(sh, i.connector, kind) == Storm.QUIET
  }

  /** The request stands at a point, undecided, the shared state being this. */
  predicate Stands(s: State, id: nat, sh: Shared, i: Input, pc: Pc) {
    s.shared == sh && id in s.requests && s.requests[id].input == i && s.requests[id].pc == pc
    && s.requests[id].reply == None && s.requests[id].events == [] && s.requests[id].answers == []
  }

  lemma OneMove(cfg: Config, s: State, front: seq<Step>, id: nat, o: Outcome) returns (steps: seq<Step>)
    ensures Run(cfg, s, steps) == Apply(cfg, Run(cfg, s, front), Move(id, o)) && steps == front + [Move(id, o)]
  {
    steps := front + [Move(id, o)];
    RunOne(cfg, Run(cfg, s, front), Move(id, o));
    RunAppend(cfg, s, front, [Move(id, o)]);
  }

  /** A silent step moves the request on and leaves the shared state alone. */
  lemma Onward(cfg: Config, s: State, front: seq<Step>, id: nat, sh: Shared, i: Input, pc: Pc, pc': Pc) returns (steps: seq<Step>)
    requires Stands(Run(cfg, s, front), id, sh, i, pc)
    requires forall r: Request :: r.input == i && r.pc == pc ==>
      Local(cfg, sh, r, MOVE).0 == SILENT && Local(cfg, sh, r, MOVE).1.(checkedAt := r.checkedAt) == r.(pc := pc')
    ensures Stands(Run(cfg, s, steps), id, sh, i, pc')
  {
    steps := OneMove(cfg, s, front, id, MOVE);
    var r := Run(cfg, s, front).requests[id];
    assert Local(cfg, sh, r, MOVE).1.input == r.input;
    SilenceChangesNothing(cfg, sh, i.connector);
  }

  lemma SilenceChangesNothing(cfg: Config, sh: Shared, c: string)
    ensures Perform(cfg, sh, c, SILENT) == sh
  {
  }

  lemma PassQuietGate(cfg: Config, s: State, front: seq<Step>, id: nat, sh: Shared, i: Input, kind: Storm.Kind, pc': Pc)
      returns (steps: seq<Step>)
    requires Stands(Run(cfg, s, front), id, sh, i, Gate(kind, None)) && BreakerOf(sh, i.connector, kind) == Storm.QUIET
    requires pc' == (match kind
                     case ReplayAttempt => Remember(None)
                     case DirectoryError => InDirectory
                     case MalformedRequest => Decode)
    requires kind.MalformedRequest? ==> cfg.transport.Http?
    ensures Stands(Run(cfg, s, steps), id, sh, i, pc')
  {
    var a := Onward(cfg, s, front, id, sh, i, Gate(kind, None), Gate(kind, Some(sh.clock)));
    steps := Onward(cfg, s, a, id, sh, i, Gate(kind, Some(sh.clock)), pc');
  }

  lemma Enters(cfg: Config, s: State, id: nat, i: Input) returns (steps: seq<Step>)
    requires Honest(cfg, s.shared, i) && id !in s.requests
    ensures Stands(Run(cfg, s, steps), id, s.shared, i, Gate(Storm.ReplayAttempt, None))
  {
    var a := [Arrive(id, i)];
    RunOne(cfg, s, Arrive(id, i));
    steps := Onward(cfg, s, a, id, s.shared, i, Arrived, Gate(Storm.ReplayAttempt, None));
  }

  /** The `Remember` body and the semaphore. */
  lemma IsAdmitted(cfg: Config, s: State, front: seq<Step>, id: nat, sh: Shared, i: Input) returns (steps: seq<Step>, sh': Shared)
    requires Stands(Run(cfg, s, front), id, sh, i, Remember(None)) && Honest(cfg, sh, i)
    ensures Stands(Run(cfg, s, steps), id, sh', i, Gate(if cfg.transport.Http? then Storm.MalformedRequest else Storm.DirectoryError, None))
    ensures sh'.storms == sh.storms
  {
    var a := Onward(cfg, s, front, id, sh, i, Remember(None), Remember(Some(sh.clock)));
    var b := OneMove(cfg, s, a, id, MOVE);
    steps := OneMove(cfg, s, b, id, MOVE);
    sh' := Run(cfg, s, steps).shared;
  }

  lemma ReachesDirectory(cfg: Config, s: State, front: seq<Step>, id: nat, sh: Shared, i: Input) returns (steps: seq<Step>)
    requires Stands(Run(cfg, s, front), id, sh, i, Gate(if cfg.transport.Http? then Storm.MalformedRequest else Storm.DirectoryError, None))
    requires forall kind :: BreakerOf(sh, i.connector, kind) == Storm.QUIET
    requires cfg.transport.Http? ==> BodyFits(cfg, i)
    ensures Stands(Run(cfg, s, steps), id, sh, i, InDirectory)
  {
    steps := front;
    if cfg.transport.Http? {
      steps := PassQuietGate(cfg, s, steps, id, sh, i, Storm.MalformedRequest, Decode);
      steps := Onward(cfg, s, steps, id, sh, i, Decode, Gate(Storm.DirectoryError, None));
    }
    steps := PassQuietGate(cfg, s, steps, id, sh, i, Storm.DirectoryError, InDirectory);
  }

  /** The request's answer is decided, and sent if the transport answers at once. */
  predicate IsDecided(cfg: Config, s: State, id: nat, pc: Pc, answer: Answer) {
    id in s.requests && s.requests[id].pc == pc && s.requests[id].reply == Some(answer)
    && s.requests[id].answers == if cfg.transport.Http? then [answer] else []
  }

  lemma Leaves(cfg: Config, s: State, front: seq<Step>, id: nat, answer: Answer) returns (steps: seq<Step>)
    requires IsDecided(cfg, Run(cfg, s, front), id, Return, answer)
    ensures var t := Run(cfg, s, steps); id in t.requests && t.requests[id].pc.Done? && t.requests[id].answers == [answer]
  {
    steps := OneMove(cfg, s, front, id, MOVE);
  }

  lemma RecordsAndReturns(cfg: Config, s: State, front: seq<Step>, id: nat, answer: Answer) returns (steps: seq<Step>)
    requires IsDecided(cfg, Run(cfg, s, front), id, Record(Storm.DirectoryError, None), answer)
    ensures IsDecided(cfg, Run(cfg, s, steps), id, Return, answer)
  {
    var clock := Run(cfg, s, front).shared.clock;
    var a := OneMove(cfg, s, front, id, MOVE);
    assert IsDecided(cfg, Run(cfg, s, a), id, Record(Storm.DirectoryError, Some(clock)), answer);
    steps := OneMove(cfg, s, a, id, MOVE);
  }

  lemma ClearsAndReturns(cfg: Config, s: State, front: seq<Step>, id: nat, sh: Shared, i: Input, o: Outcome) returns (steps: seq<Step>)
    requires Stands(Run(cfg, s, front), id, sh, i, Reset(o))
    ensures IsDecided(cfg, Run(cfg, s, steps), id, Return, Told(o))
  {
    ConcludesTold(cfg, Run(cfg, s, front).requests[id], o);
    steps := OneMove(cfg, s, front, id, MOVE);
  }

  lemma ConcludesTold(cfg: Config, r: Request, o: Outcome)
    ensures Conclude(cfg, r, o).answer == Told(o) && Conclude(cfg, r, o).fault == Told(o).Refused?
  {
    var c := r.input.connector;
    var tenantId := if c in cfg.tenants then cfg.tenants[c].tenantId else "";
    ConclusionTells(tenantId, c, o);
    ConclusionsAgree(tenantId, c, o);
    FaultsAreRefused(o);
  }

  /** The directory answers, and the request is told so. */
  lemma IsTold(cfg: Config, s: State, front: seq<Step>, id: nat, sh: Shared, i: Input, o: Outcome) returns (steps: seq<Step>)
    requires Stands(Run(cfg, s, front), id, sh, i, InDirectory)
    ensures var t := Run(cfg, s, steps); id in t.requests && t.requests[id].pc.Done? && t.requests[id].answers == [Told(o)]
  {
    ConcludesTold(cfg, Run(cfg, s, front).requests[id], o);
    steps := OneMove(cfg, s, front, id, o);
    if Told(o).Refused? {
      steps := RecordsAndReturns(cfg, s, steps, id, Told(o));
    } else {
      SilenceChangesNothing(cfg, sh, i.connector);
      steps := ClearsAndReturns(cfg, s, steps, id, sh, i, o);
    }
    steps := Leaves(cfg, s, steps, id, Told(o));
  }

  /** From any state, an honest request has a run in which it reaches the directory and is told exactly what
      the directory says: over HTTP and on the relay. */
  lemma HonestRequestIsAnswered(cfg: Config, s: State, id: nat, i: Input, o: Outcome)
      returns (there: seq<Step>, back: seq<Step>)
    requires Honest(cfg, s.shared, i) && id !in s.requests
    ensures id in Run(cfg, s, there).requests && Run(cfg, s, there).requests[id].pc.InDirectory?
    ensures id in Run(cfg, s, back).requests && Run(cfg, s, back).requests[id].pc.Done?
    ensures Run(cfg, s, back).requests[id].answers == [Told(o)]
  {
    var sh := s.shared;
    var a := Enters(cfg, s, id, i);
    var b := PassQuietGate(cfg, s, a, id, sh, i, Storm.ReplayAttempt, Remember(None));
    var c, sh' := IsAdmitted(cfg, s, b, id, sh, i);
    assert forall kind :: BreakerOf(sh', i.connector, kind) == BreakerOf(sh, i.connector, kind);
    there := ReachesDirectory(cfg, s, c, id, sh', i);
    back := IsTold(cfg, s, there, id, sh', i, o);
  }
}
