/** The breakers inside the admission machine are the breakers of `Storm`, fed with the offences of requests. */
module AdmissionStorms {
  import opened Clock
  import opened Wrappers
  import opened Admission
  import opened AdmissionSafety
  import opened AdmissionVerdicts
  import opened Audit
  import Directory
  import Storm

  // ----- the trace of one breaker

  function Noted(op: StormOp, kind: Storm.Kind): seq<Storm.Event> {
    match op
    case Keep => []
    case Count(k, now) => if k == kind then [Storm.Record(now)] else []
    case Clear(k) => if k == kind then [Storm.Reset] else []
  }

  /** What a step does to the breaker `kind` of connector `c`. */
  function NotedBy(cfg: Config, s: State, step: Step, c: string, kind: Storm.Kind): seq<Storm.Event> {
    if step.Move? && step.id in s.requests && s.requests[step.id].input.connector == c then
      Noted(Local(cfg, s.shared, s.requests[step.id], step.outcome).0.storm, kind)
    else []
  }

  /** The records and resets of one breaker over a run, in lock order. */
  function Trace(cfg: Config, s: State, steps: seq<Step>, c: string, kind: Storm.Kind): seq<Storm.Event> {
    if steps == [] then []
    else
      var n := |steps| - 1;
      Trace(cfg, s, steps[..n], c, kind) + NotedBy(cfg, Run(cfg, s, steps[..n]), steps[n], c, kind)
  }

  function RuleOf(cfg: Config, c: string, kind: Storm.Kind): (r: Storm.Rule)
    requires c in cfg.tenants
    ensures r.Positive()
  {
    cfg.tenants[c].RuleFor(kind)
  }

  lemma PerformKeepsOthers(cfg: Config, sh: Shared, d: string, e: Effect, c: string, kind: Storm.Kind, trace: seq<Storm.Event>)
    requires c in cfg.tenants && sh.storms.Keys == cfg.tenants.Keys
    requires BreakerOf(sh, c, kind) == Storm.After(RuleOf(cfg, c, kind), trace)
    ensures BreakerOf(Perform(cfg, sh, d, e), c, kind)
      == Storm.After(RuleOf(cfg, c, kind), trace + (if d == c then Noted(e.storm, kind) else []))
  {
    if d == c && Noted(e.storm, kind) != [] {
      TraceGrows(RuleOf(cfg, c, kind), trace, Noted(e.storm, kind)[0]);
    } else {
      assert trace + [] == trace;
    }
  }

  lemma TraceGrows(r: Storm.Rule, trace: seq<Storm.Event>, e: Storm.Event)
    ensures Storm.After(r, trace + [e]) == match e
      case Record(at) => Storm.Recorded(r, Storm.After(r, trace), at)
      case Reset => Storm.QUIET
  {
    assert (trace + [e])[..|trace|] == trace;
  }

  lemma InputStays(cfg: Config, sh: Shared, r: Request, o: Directory.Outcome)
    ensures Local(cfg, sh, r, o).1.input == r.input
  {
  }

  lemma StepFollowsTrace(cfg: Config, s: State, step: Step, c: string, kind: Storm.Kind, trace: seq<Storm.Event>)
    requires Inv(cfg, s) && c in cfg.tenants && BreakerOf(s.shared, c, kind) == Storm.After(RuleOf(cfg, c, kind), trace)
    ensures BreakerOf(Apply(cfg, s, step).shared, c, kind)
      == Storm.After(RuleOf(cfg, c, kind), trace + NotedBy(cfg, s, step, c, kind))
  {
    assert trace + [] == trace;
    if step.Move? && step.id in s.requests {
      var r := s.requests[step.id];
      InputStays(cfg, s.shared, r, step.outcome);
      PerformKeepsOthers(cfg, s.shared, r.input.connector, Local(cfg, s.shared, r, step.outcome).0, c, kind, trace);
    }
  }

  /** In every run the state of a breaker is what its records and resets make of it. */
  lemma {:induction false} BreakerIsTrace(cfg: Config, start: Time, steps: seq<Step>, c: string, kind: Storm.Kind)
    requires c in cfg.tenants
    ensures BreakerOf(Run(cfg, Init(cfg, start), steps).shared, c, kind)
      == Storm.After(RuleOf(cfg, c, kind), Trace(cfg, Init(cfg, start), steps, c, kind))
  {
    if steps != [] {
      var n := |steps| - 1;
      BreakerIsTrace(cfg, start, steps[..n], c, kind);
      EveryRunIsSafe(cfg, start, steps[..n]);
      StepFollowsTrace(cfg, Run(cfg, Init(cfg, start), steps[..n]), steps[n], c, kind, Trace(cfg, Init(cfg, start), steps[..n], c, kind));
    }
  }

  // ----- who is turned away

  /** A request at the gate of a breaker, its clock read. */
  predicate AtGate(s: State, id: nat, c: string, kind: Storm.Kind, now: Time) {
    id in s.requests && s.requests[id].input.connector == c && s.requests[id].pc == Gate(kind, Some(now))
  }

  /** The step turns the request away with the breaker's code. */
  predicate TurnedAway(cfg: Config, s: State, id: nat, o: Directory.Outcome, kind: Storm.Kind)
    requires id in s.requests
  {
    Apply(cfg, s, Move(id, o)).requests[id].reply == Some(Refused(StormCode(kind), true))
  }

  lemma GateObeysBreaker(cfg: Config, s: State, id: nat, o: Directory.Outcome, c: string, kind: Storm.Kind, now: Time)
    requires AtGate(s, id, c, kind, now) && s.requests[id].reply == None
    ensures TurnedAway(cfg, s, id, o, kind) <==> Storm.IsBlocked(BreakerOf(s.shared, c, kind), now)
  {
    assert StormCode(Storm.MalformedRequest) != "invalid_relay_request";
  }

  /** A request is turned away only for a burst: at least `limit` offences on its connector since the last
      verdict, inside one window, the last of them less than `block` ago. */
  lemma TurnedAwayMeansBurst(cfg: Config, start: Time, steps: seq<Step>, id: nat, o: Directory.Outcome, c: string, kind: Storm.Kind, now: Time)
    requires var s := Run(cfg, Init(cfg, start), steps);
      c in cfg.tenants && AtGate(s, id, c, kind, now) && TurnedAway(cfg, s, id, o, kind)
    requires Storm.ClockOrder(Trace(cfg, Init(cfg, start), steps, c, kind), now)
    ensures var trace, rule := Trace(cfg, Init(cfg, start), steps, c, kind), RuleOf(cfg, c, kind);
      exists lo: nat, hi: nat :: Storm.Burst(rule, trace, lo, hi) && trace[hi].at <= now < trace[hi].at + rule.block
  {
    var s := Run(cfg, Init(cfg, start), steps);
    AtGateIsUndecided(cfg, start, steps, id);
    GateObeysBreaker(cfg, s, id, o, c, kind, now);
    BreakerIsTrace(cfg, start, steps, c, kind);
    Storm.BlockedMeansBurst(RuleOf(cfg, c, kind), Trace(cfg, Init(cfg, start), steps, c, kind), now);
  }

  lemma AtGateIsUndecided(cfg: Config, start: Time, steps: seq<Step>, id: nat)
    requires var s := Run(cfg, Init(cfg, start), steps); id in s.requests && s.requests[id].pc.Gate?
    ensures Run(cfg, Init(cfg, start), steps).requests[id].reply == None
  {
    EveryRunIsSafe(cfg, start, steps);
    var s := Run(cfg, Init(cfg, start), steps);
    assert RequestOk(cfg, s.shared.clock, s.requests[id]);
  }

  /** And after a burst everybody is turned away for at least `block` from its first record. */
  lemma BurstTurnsAway(cfg: Config, start: Time, steps: seq<Step>, id: nat, o: Directory.Outcome, c: string, kind: Storm.Kind, now: Time, from: nat)
    requires var s := Run(cfg, Init(cfg, start), steps); c in cfg.tenants && AtGate(s, id, c, kind, now)
    requires Storm.RecentBurst(RuleOf(cfg, c, kind), Trace(cfg, Init(cfg, start), steps, c, kind), from, now)
    ensures TurnedAway(cfg, Run(cfg, Init(cfg, start), steps), id, o, kind)
  {
    var s := Run(cfg, Init(cfg, start), steps);
    assert Storm.IsBlocked(BreakerOf(s.shared, c, kind), now) by {
      BreakerIsTrace(cfg, start, steps, c, kind);
      Storm.BurstHolds(RuleOf(cfg, c, kind), Trace(cfg, Init(cfg, start), steps, c, kind), from, now);
    }
    AtGateIsUndecided(cfg, start, steps, id);
    GateObeysBreaker(cfg, s, id, o, c, kind, now);
  }

  // ----- what is recorded

  function MalformedCode(cfg: Config): string {
    if cfg.transport.Http? then "malformed_request" else "invalid_relay_request"
  }

  /** What each breaker is there for: a replay, a malformed request, a failed directory call. */
  predicate Offends(cfg: Config, r: Request, kind: Storm.Kind) {
    match kind
    case ReplayAttempt => |r.events| == 1 && r.events[0].eventType == ReplayDetected
    case MalformedRequest =>
      |r.events| == 1 && r.events[0].eventType == VerifyError && r.events[0].errorCode == MalformedCode(cfg) && !r.events[0].retryable
    case DirectoryError => r.heard.Some? && r.heard.value.IsFault()
  }

  predicate Owes(r: Request, kind: Storm.Kind) {
    r.pc.Record? && r.pc.kind == kind
  }

  /** An offence that has been recorded. */
  predicate Settled(cfg: Config, r: Request, kind: Storm.Kind) {
    Offends(cfg, r, kind) && !Owes(r, kind)
  }

  /** A request about to record an offence has committed it. */
  predicate Honest(cfg: Config, r: Request) {
    r.pc.Record? ==> Offends(cfg, r, r.pc.kind)
  }

  predicate Proper(cfg: Config, r: Request) {
    AnswerOk(cfg, r) && Honest(cfg, r) && Faithful(cfg, r) && (cfg.transport.Relay? ==> !r.pc.Decode?)
  }

  function Records(trace: seq<Storm.Event>): nat {
    if trace == [] then 0
    else Records(trace[..|trace| - 1]) + (if trace[|trace| - 1].Record? then 1 else 0)
  }

  function SettledSet(cfg: Config, requests: map<nat, Request>, c: string, kind: Storm.Kind): set<nat> {
    set id | id in requests && requests[id].input.connector == c && Settled(cfg, requests[id], kind)
  }

  /** A step records an offence exactly when it settles one, and clears a breaker only for a verdict. */
  predicate Settles(cfg: Config, r: Request, e: Effect, r': Request, kind: Storm.Kind) {
    && r'.input == r.input && Honest(cfg, r')
    && (if e.storm.Count? && e.storm.kind == kind then !Settled(cfg, r, kind) && Settled(cfg, r', kind)
        else Settled(cfg, r', kind) == Settled(cfg, r, kind))
  }

  lemma EntrySettles(cfg: Config, sh: Shared, r: Request, kind: Storm.Kind)
    requires Proper(cfg, r) && r.pc.Arrived?
    ensures var (e, r') := Enter(cfg, sh, r); Settles(cfg, r, e, r', kind)
  {
    assert MalformedCode(cfg) != "unknown_connector" && MalformedCode(cfg) != "payload_too_large";
  }

  lemma GateSettles(cfg: Config, sh: Shared, r: Request, now: Time, kind: Storm.Kind)
    requires Proper(cfg, r) && r.pc.Gate?
    ensures var (e, r') := PassGate(cfg, sh, r, r.pc.kind, now); Settles(cfg, r, e, r', kind)
  {
  }

  lemma ReturnSettles(cfg: Config, r: Request, o: Directory.Outcome, kind: Storm.Kind)
    requires Proper(cfg, r) && r.pc.InDirectory?
    ensures var (e, r') := DirectoryReturns(cfg, r, o); Settles(cfg, r, e, r', kind)
  {
    var c := r.input.connector;
    ConclusionsAgree(if c in cfg.tenants then cfg.tenants[c].tenantId else "", c, o);
  }

  lemma ClearSettles(cfg: Config, r: Request, o: Directory.Outcome, kind: Storm.Kind)
    requires Proper(cfg, r) && r.pc == Reset(o)
    ensures var (e, r') := ClearBreaker(cfg, r, o); Settles(cfg, r, e, r', kind)
  {
    var c := r.input.connector;
    ConclusionsAgree(if c in cfg.tenants then cfg.tenants[c].tenantId else "", c, o);
  }

  lemma RememberSettles(cfg: Config, sh: Shared, r: Request, now: Time, kind: Storm.Kind)
    requires Proper(cfg, r) && r.pc.Remember?
    ensures var (e, r') := RememberBody(cfg, sh, r, now); Settles(cfg, r, e, r', kind)
  {
  }

  lemma SlotSettles(cfg: Config, sh: Shared, r: Request, kind: Storm.Kind)
    requires Proper(cfg, r) && r.pc.Acquire?
    ensures var (e, r') := TakeSlot(cfg, sh, r); Settles(cfg, r, e, r', kind)
  {
    assert MalformedCode(cfg) != "connector_rate_limited";
  }

  lemma DecodeSettles(cfg: Config, r: Request, kind: Storm.Kind)
    requires Proper(cfg, r) && r.pc.Decode?
    ensures var (e, r') := DecodeBody(cfg, r); Settles(cfg, r, e, r', kind)
  {
    assert MalformedCode(cfg) != "tenant_connector_mismatch";
  }

  lemma LocalSettles(cfg: Config, sh: Shared, r: Request, o: Directory.Outcome, kind: Storm.Kind)
    requires Proper(cfg, r)
    ensures var (e, r') := Local(cfg, sh, r, o); Settles(cfg, r, e, r', kind)
  {
    match r.pc
    case Arrived => EntrySettles(cfg, sh, r, kind);
    case Gate(_, Some(now)) => GateSettles(cfg, sh, r, now, kind);
    case InDirectory => ReturnSettles(cfg, r, o, kind);
    case Reset(outcome) => ClearSettles(cfg, r, outcome, kind);
    case Remember(Some(now)) => RememberSettles(cfg, sh, r, now, kind);
    case Acquire => SlotSettles(cfg, sh, r, kind);
    case Decode => DecodeSettles(cfg, r, kind);
    case _ => OtherSettles(cfg, sh, r, o, kind);
  }

  lemma OtherSettles(cfg: Config, sh: Shared, r: Request, o: Directory.Outcome, kind: Storm.Kind)
    requires Proper(cfg, r) && (r.pc.Record? || r.pc.Return? || r.pc.Done? || ((r.pc.Gate? || r.pc.Remember?) && r.pc.reading.None?))
    ensures var (e, r') := Local(cfg, sh, r, o); Settles(cfg, r, e, r', kind)
  {
  }

  lemma SettledChange(cfg: Config, requests: map<nat, Request>, id: nat, e: Effect, r: Request, c: string, kind: Storm.Kind)
    requires id in requests && Settles(cfg, requests[id], e, r, kind)
    ensures |SettledSet(cfg, requests[id := r], c, kind)|
      == |SettledSet(cfg, requests, c, kind)| + (if r.input.connector == c && e.storm.Count? && e.storm.kind == kind then 1 else 0)
  {
    var changed := requests[id := r];
    OneDiffers(SettledSet(cfg, requests, c, kind), SettledSet(cfg, changed, c, kind), id);
  }

  lemma OneDiffers(before: set<nat>, after: set<nat>, id: nat)
    requires forall i :: i != id ==> (i in after <==> i in before)
    ensures |after| == |before| + (if id in after then 1 else 0) - (if id in before then 1 else 0)
  {
    SizeWithout(before, id);
    SizeWithout(after, id);
    assert before - {id} == after - {id};
  }

  lemma RecordsAppend(trace: seq<Storm.Event>, op: StormOp, kind: Storm.Kind)
    ensures Records(trace + Noted(op, kind)) == Records(trace) + (if op.Count? && op.kind == kind then 1 else 0)
  {
    var more := Noted(op, kind);
    if more == [] {
      assert trace + more == trace;
    } else {
      assert (trace + more)[..|trace|] == trace;
    }
  }

  lemma SettlingStep(cfg: Config, requests: map<nat, Request>, id: nat, e: Effect, r: Request, c: string, kind: Storm.Kind,
                     trace: seq<Storm.Event>)
    requires id in requests && Settles(cfg, requests[id], e, r, kind)
    requires Records(trace) == |SettledSet(cfg, requests, c, kind)|
    ensures Records(trace + (if requests[id].input.connector == c then Noted(e.storm, kind) else []))
      == |SettledSet(cfg, requests[id := r], c, kind)|
  {
    SettledChange(cfg, requests, id, e, r, c, kind);
    RecordsAppend(trace, e.storm, kind);
    assert trace + [] == trace;
  }

  ghost predicate AllHonest(cfg: Config, s: State) {
    forall id :: id in s.requests ==> Honest(cfg, s.requests[id])
  }

  lemma StepIsHonest(cfg: Config, s: State, step: Step)
    requires Inv(cfg, s) && AllFaithful(cfg, s) && AllHonest(cfg, s)
    ensures AllHonest(cfg, Apply(cfg, s, step))
  {
    if step.Move? && step.id in s.requests {
      assert RequestOk(cfg, s.shared.clock, s.requests[step.id]);
      LocalSettles(cfg, s.shared, s.requests[step.id], step.outcome, Storm.DirectoryError);
    }
  }

  lemma {:induction false} EveryRunIsProper(cfg: Config, start: Time, steps: seq<Step>)
    ensures var s := Run(cfg, Init(cfg, start), steps); Inv(cfg, s) && AllFaithful(cfg, s) && AllHonest(cfg, s)
  {
    EveryRunIsSafe(cfg, start, steps);
    EveryRunIsFaithful(cfg, start, steps);
    if steps != [] {
      var n := |steps| - 1;
      EveryRunIsProper(cfg, start, steps[..n]);
      StepIsHonest(cfg, Run(cfg, Init(cfg, start), steps[..n]), steps[n]);
    }
  }

  lemma ProperAt(cfg: Config, start: Time, steps: seq<Step>, id: nat)
    requires id in Run(cfg, Init(cfg, start), steps).requests
    ensures Proper(cfg, Run(cfg, Init(cfg, start), steps).requests[id])
  {
    EveryRunIsProper(cfg, start, steps);
    var s := Run(cfg, Init(cfg, start), steps);
    assert RequestOk(cfg, s.shared.clock, s.requests[id]);
  }

  lemma OneStepOfTrace(cfg: Config, s: State, step: Step, c: string, kind: Storm.Kind, trace: seq<Storm.Event>)
    requires step.Move? && step.id in s.requests ==> Proper(cfg, s.requests[step.id])
    requires Records(trace) == |SettledSet(cfg, s.requests, c, kind)|
    ensures Records(trace + NotedBy(cfg, s, step, c, kind)) == |SettledSet(cfg, Apply(cfg, s, step).requests, c, kind)|
  {
    if step.Move? && step.id in s.requests {
      LocalSettles(cfg, s.shared, s.requests[step.id], step.outcome, kind);
      var (e, r) := Local(cfg, s.shared, s.requests[step.id], step.outcome);
      SettlingStep(cfg, s.requests, step.id, e, r, c, kind, trace);
      assert Apply(cfg, s, step).requests == s.requests[step.id := r];
    } else {
      assert trace + [] == trace;
      assert SettledSet(cfg, Apply(cfg, s, step).requests, c, kind) == SettledSet(cfg, s.requests, c, kind);
    }
  }

  lemma {:induction false} OffencesSoFar(cfg: Config, start: Time, steps: seq<Step>, c: string, kind: Storm.Kind)
    ensures Records(Trace(cfg, Init(cfg, start), steps, c, kind))
      == |SettledSet(cfg, Run(cfg, Init(cfg, start), steps).requests, c, kind)|
  {
    if steps == [] {
      assert SettledSet(cfg, map[], c, kind) == {};
    } else {
      var n := |steps| - 1;
      var s := Run(cfg, Init(cfg, start), steps[..n]);
      OffencesSoFar(cfg, start, steps[..n], c, kind);
      if steps[n].Move? && steps[n].id in s.requests {
        ProperAt(cfg, start, steps[..n], steps[n].id);
      }
      OneStepOfTrace(cfg, s, steps[n], c, kind, Trace(cfg, Init(cfg, start), steps[..n], c, kind));
    }
  }

  /** Once all requests are done, each breaker of `c` has recorded every offence of its kind on `c` once: the
      replays, the malformed requests, the failed directory calls, and nothing else. */
  lemma EveryOffenceIsRecordedOnce(cfg: Config, start: Time, steps: seq<Step>, c: string, kind: Storm.Kind)
    requires forall id :: id in Run(cfg, Init(cfg, start), steps).requests ==> Run(cfg, Init(cfg, start), steps).requests[id].pc.Done?
    ensures var s := Run(cfg, Init(cfg, start), steps);
      Records(Trace(cfg, Init(cfg, start), steps, c, kind))
        == |set id | id in s.requests && s.requests[id].input.connector == c && Offends(cfg, s.requests[id], kind)|
  {
    OffencesSoFar(cfg, start, steps, c, kind);
    var s := Run(cfg, Init(cfg, start), steps);
    assert SettledSet(cfg, s.requests, c, kind)
        == set id | id in s.requests && s.requests[id].input.connector == c && Offends(cfg, s.requests[id], kind);
  }

  // ----- what is not recorded

  /** What has happened to a request stays so. */
  predicate Kept(r: Request, r': Request) {
    (|r.events| == 1 ==> r'.events == r.events) && (r.heard.Some? ==> r'.heard == r.heard)
  }

  lemma LocalKeepsHistory(cfg: Config, sh: Shared, r: Request, o: Directory.Outcome)
    requires AnswerOk(cfg, r) && Faithful(cfg, r)
    ensures Kept(r, Local(cfg, sh, r, o).1)
  {
    if r.pc.Arrived? || r.pc.Gate? {
      EntryKeepsHistory(cfg, sh, r, o);
    }
  }

  lemma EntryKeepsHistory(cfg: Config, sh: Shared, r: Request, o: Directory.Outcome)
    requires AnswerOk(cfg, r) && Faithful(cfg, r) && (r.pc.Arrived? || r.pc.Gate?)
    ensures Kept(r, Local(cfg, sh, r, o).1)
  {
  }

  lemma {:induction false} HistoryStays(cfg: Config, start: Time, steps: seq<Step>, k: nat, id: nat)
    requires k <= |steps| && id in Run(cfg, Init(cfg, start), steps[..k]).requests
    ensures id in Run(cfg, Init(cfg, start), steps).requests
    ensures Kept(Run(cfg, Init(cfg, start), steps[..k]).requests[id], Run(cfg, Init(cfg, start), steps).requests[id])
    decreases |steps|
  {
    if k == |steps| {
      assert steps[..k] == steps;
    } else {
      var n := |steps| - 1;
      assert steps[..n][..k] == steps[..k];
      HistoryStays(cfg, start, steps[..n], k, id);
      var s := Run(cfg, Init(cfg, start), steps[..n]);
      if IsOwn(s, steps[n], id) {
        ProperAt(cfg, start, steps[..n], id);
        LocalKeepsHistory(cfg, s.shared, s.requests[id], steps[n].outcome);
      } else {
        OthersLeaveAlone(cfg, s, steps[n], id);
      }
    }
  }

  lemma NotedHasCause(cfg: Config, sh: Shared, r: Request, o: Directory.Outcome, kind: Storm.Kind)
    requires Proper(cfg, r) && Noted(Local(cfg, sh, r, o).0.storm, kind) != []
    ensures (Owes(r, kind) && Offends(cfg, r, kind)) || (r.pc.Reset? && kind == Storm.DirectoryError && r.heard == Some(r.pc.outcome))
  {
  }

  /** Nothing reaches a breaker but the offences and verdicts of the requests themselves. */
  lemma NotedMeansOffence(cfg: Config, start: Time, steps: seq<Step>, k: nat, c: string, kind: Storm.Kind)
    requires k < |steps| && NotedBy(cfg, Run(cfg, Init(cfg, start), steps[..k]), steps[k], c, kind) != []
    ensures steps[k].Move? && steps[k].id in Run(cfg, Init(cfg, start), steps).requests
    ensures var r := Run(cfg, Init(cfg, start), steps).requests[steps[k].id];
      Offends(cfg, r, kind) || (kind == Storm.DirectoryError && r.heard.Some?)
  {
    var id := steps[k].id;
    var s := Run(cfg, Init(cfg, start), steps[..k]);
    ProperAt(cfg, start, steps[..k], id);
    NotedHasCause(cfg, s.shared, s.requests[id], steps[k].outcome, kind);
    HistoryStays(cfg, start, steps, k, id);
  }

  lemma VerdictIsClear(cfg: Config, sh: Shared, r: Request, o: Directory.Outcome)
    requires r.pc.Reset?
    ensures Local(cfg, sh, r, o).0.storm == Clear(Storm.DirectoryError) && Local(cfg, sh, r, o).1.input == r.input
  {
  }

  lemma ClearMakesQuiet(cfg: Config, sh: Shared, c: string, e: Effect)
    requires e.storm == Clear(Storm.DirectoryError) && c in cfg.tenants
    ensures BreakerOf(Perform(cfg, sh, c, e), c, Storm.DirectoryError) == Storm.QUIET
  {
  }

  /** A returned verdict clears its connector's directory breaker, and no other. */
  lemma VerdictClearsBreaker(cfg: Config, start: Time, steps: seq<Step>, id: nat, o: Directory.Outcome, kind: Storm.Kind)
    requires var s := Run(cfg, Init(cfg, start), steps); id in s.requests && s.requests[id].pc.Reset?
    ensures var s := Run(cfg, Init(cfg, start), steps);
      var c := s.requests[id].input.connector;
      && NotedBy(cfg, s, Move(id, o), c, kind) == (if kind == Storm.DirectoryError then [Storm.Reset] else [])
      && BreakerOf(Apply(cfg, s, Move(id, o)).shared, c, Storm.DirectoryError) == Storm.QUIET
  {
    var s := Run(cfg, Init(cfg, start), steps);
    ConnectorIsKnown(cfg, start, steps, id);
    VerdictIsClear(cfg, s.shared, s.requests[id], o);
    ClearMakesQuiet(cfg, s.shared, s.requests[id].input.connector, Local(cfg, s.shared, s.requests[id], o).0);
  }

  lemma ConnectorIsKnown(cfg: Config, start: Time, steps: seq<Step>, id: nat)
    requires var s := Run(cfg, Init(cfg, start), steps); id in s.requests && s.requests[id].pc.Reset?
    ensures Run(cfg, Init(cfg, start), steps).requests[id].input.connector in cfg.tenants
  {
    EveryRunIsSafe(cfg, start, steps);
    var s := Run(cfg, Init(cfg, start), steps);
    assert SlotOk(cfg, s.requests[id]) by {
      assert RequestOk(cfg, s.shared.clock, s.requests[id]);
    }
  }

  /** A request that fails verification leaves every breaker as it is, in every run. */
  lemma HmacFailuresAreNotRecorded(cfg: Config, start: Time, steps: seq<Step>, k: nat, c: string, kind: Storm.Kind)
    requires k < |steps| && steps[k].Move? && steps[k].id in Run(cfg, Init(cfg, start), steps).requests
    requires var r := Run(cfg, Init(cfg, start), steps).requests[steps[k].id]; |r.events| == 1 && r.events[0].eventType == HmacFailure
    ensures NotedBy(cfg, Run(cfg, Init(cfg, start), steps[..k]), steps[k], c, kind) == []
  {
    if NotedBy(cfg, Run(cfg, Init(cfg, start), steps[..k]), steps[k], c, kind) != [] {
      NotedMeansOffence(cfg, start, steps, k, c, kind);
      ProperAt(cfg, start, steps, steps[k].id);
      ConcludedIsNoHmacFailure(cfg, Run(cfg, Init(cfg, start), steps).requests[steps[k].id]);
      assert false;
    }
  }

  lemma ConcludedIsNoHmacFailure(cfg: Config, r: Request)
    requires Proper(cfg, r) && |r.events| == 1 && r.heard.Some?
    ensures r.events[0].eventType != HmacFailure
  {
  }
}
