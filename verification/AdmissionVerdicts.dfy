/** Where answers come from, and that every request gets one. */
module AdmissionVerdicts {
  import opened Clock
  import opened Wrappers
  import opened Admission
  import opened AdmissionSafety
  import opened Directory
  import Replay
  import Storm

  // ----- verdicts come from the directory

  /** A request that has heard from the directory answers with that, and one that has not only refuses. */
  predicate Faithful(cfg: Config, r: Request) {
    match r.heard
    case None => !r.pc.Reset? && (r.reply.Some? ==> r.reply.value.Refused?)
    case Some(o) =>
      && (r.pc == Reset(o) || (r.pc.Record? && r.pc.kind.DirectoryError?) || r.pc.Return? || r.pc.Done?)
      && (!r.pc.Reset? ==> r.reply == Some(Conclude(cfg, r, o).answer) && r.events == [Conclude(cfg, r, o).event])
  }

  lemma DirectoryIsFaithful(cfg: Config, sh: Shared, r: Request, o: Outcome)
    requires AnswerOk(cfg, r) && Faithful(cfg, r) && (r.pc.InDirectory? || r.pc.Reset?)
    ensures Faithful(cfg, Local(cfg, sh, r, o).1)
  {
  }

  lemma EntryIsFaithful(cfg: Config, sh: Shared, r: Request, o: Outcome)
    requires AnswerOk(cfg, r) && Faithful(cfg, r) && (r.pc.Arrived? || r.pc.Gate?)
    ensures Faithful(cfg, Local(cfg, sh, r, o).1)
  {
  }

  lemma LocalIsFaithful(cfg: Config, sh: Shared, r: Request, o: Outcome)
    requires AnswerOk(cfg, r) && Faithful(cfg, r)
    ensures Faithful(cfg, Local(cfg, sh, r, o).1)
  {
    if r.pc.InDirectory? || r.pc.Reset? {
      DirectoryIsFaithful(cfg, sh, r, o);
    } else if r.pc.Arrived? || r.pc.Gate? {
      EntryIsFaithful(cfg, sh, r, o);
    } else if r.pc.Remember? || r.pc.Acquire? || r.pc.Decode? {
      MiddleIsFaithful(cfg, sh, r, o);
    }
  }

  lemma MiddleIsFaithful(cfg: Config, sh: Shared, r: Request, o: Outcome)
    requires AnswerOk(cfg, r) && Faithful(cfg, r) && (r.pc.Remember? || r.pc.Acquire? || r.pc.Decode?)
    ensures Faithful(cfg, Local(cfg, sh, r, o).1)
  {
  }

  ghost predicate AllFaithful(cfg: Config, s: State) {
    forall id :: id in s.requests ==> Faithful(cfg, s.requests[id])
  }

  lemma StepIsFaithful(cfg: Config, s: State, step: Step)
    requires Inv(cfg, s) && AllFaithful(cfg, s)
    ensures AllFaithful(cfg, Apply(cfg, s, step))
  {
    if step.Move? && step.id in s.requests {
      assert RequestOk(cfg, s.shared.clock, s.requests[step.id]);
      LocalIsFaithful(cfg, s.shared, s.requests[step.id], step.outcome);
    }
  }

  lemma {:induction false} EveryRunIsFaithful(cfg: Config, start: Time, steps: seq<Step>)
    ensures AllFaithful(cfg, Run(cfg, Init(cfg, start), steps))
  {
    if steps != [] {
      var n := |steps| - 1;
      EveryRunIsFaithful(cfg, start, steps[..n]);
      EveryRunIsSafe(cfg, start, steps[..n]);
      StepIsFaithful(cfg, Run(cfg, Init(cfg, start), steps[..n]), steps[n]);
    }
  }

  /** The answer and the event of a finished request are the conclusion from what the directory returned to
      it; a request that never heard from the directory was refused. */
  lemma VerdictsComeFromTheDirectory(cfg: Config, start: Time, steps: seq<Step>, id: nat)
    requires var s := Run(cfg, Init(cfg, start), steps); id in s.requests && s.requests[id].pc.Done?
    ensures var r := Run(cfg, Init(cfg, start), steps).requests[id];
      match r.heard
      case None => |r.answers| == 1 && r.answers[0].Refused?
      case Some(o) => r.answers == [Conclude(cfg, r, o).answer] && r.events == [Conclude(cfg, r, o).event]
  {
    EveryRunIsFaithful(cfg, start, steps);
    EveryRunIsSafe(cfg, start, steps);
    var s := Run(cfg, Init(cfg, start), steps);
    assert RequestOk(cfg, s.shared.clock, s.requests[id]) && Faithful(cfg, s.requests[id]);
  }

  // ----- refusals have their reason

  /** A request at the semaphore is turned away exactly when `limit` others hold the slots. */
  lemma RateLimitedMeansFull(cfg: Config, start: Time, steps: seq<Step>, id: nat, o: Outcome)
    requires var s := Run(cfg, Init(cfg, start), steps); id in s.requests && s.requests[id].pc.Acquire?
    requires Run(cfg, Init(cfg, start), steps).requests[id].input.connector in cfg.tenants
    ensures var s := Run(cfg, Init(cfg, start), steps);
      var c := s.requests[id].input.connector;
      var after := Apply(cfg, s, Move(id, o)).requests[id];
      && (after.reply.Some? <==> |Holders(s.requests, c)| == cfg.tenants[c].Limit())
      && (after.reply.Some? ==> after.reply.value == Refused("connector_rate_limited", true) && id !in Holders(s.requests, c))
  {
    EveryRunIsSafe(cfg, start, steps);
    var s := Run(cfg, Init(cfg, start), steps);
    assert RequestOk(cfg, s.shared.clock, s.requests[id]);
  }

  /** A request is refused as a replay only if its key was accepted before and has not expired. */
  lemma ReplayRefusalIsJustified(cfg: Config, start: Time, steps: seq<Step>, id: nat, now: Time, o: Outcome) returns (i: nat)
    requires var s := Run(cfg, Init(cfg, start), steps); id in s.requests && s.requests[id].pc == Remember(Some(now))
    requires Apply(cfg, Run(cfg, Init(cfg, start), steps), Move(id, o)).requests[id].reply.Some?
    ensures var s := Run(cfg, Init(cfg, start), steps);
      && i < |s.shared.log| && Replay.Accepted(s.shared.log, TTL, i)
      && s.shared.log[i].key == ReplayKey(cfg, s.requests[id].input) && now <= s.shared.log[i].now + TTL
  {
    EveryRunIsSafe(cfg, start, steps);
    var s := Run(cfg, Init(cfg, start), steps);
    assert RequestOk(cfg, s.shared.clock, s.requests[id]);
    var key := ReplayKey(cfg, s.requests[id].input);
    assert !Replay.Accepts(s.shared.entries, key, now);
    i := Replay.EntriesComeFromAcceptances(s.shared.log, TTL, key);
  }

  // ----- every request ends

  /** An upper bound on the steps a request has left. */
  function Left(cfg: Config, pc: Pc): nat {
    match pc
    case Arrived => 15
    case Gate(kind, reading) =>
      (match kind
       case ReplayAttempt => 14
       case MalformedRequest => if cfg.transport.Http? then 9 else 14
       case DirectoryError => 6) - (if reading.Some? then 1 else 0)
    case Remember(reading) => if reading.Some? then 11 else 12
    case Acquire => 10
    case Decode => 7
    case InDirectory => 4
    case Reset(_) => 2
    case Record(_, reading) => if reading.Some? then 2 else 3
    case Return => 1
    case Done => 0
  }

  lemma EntryRunsOut(cfg: Config, sh: Shared, r: Request, o: Outcome)
    requires r.pc.Arrived? || r.pc.Gate?
    ensures Left(cfg, Local(cfg, sh, r, o).1.pc) < Left(cfg, r.pc)
  {
  }

  lemma StepsRunOut(cfg: Config, sh: Shared, r: Request, o: Outcome)
    ensures r.pc.Done? || Left(cfg, Local(cfg, sh, r, o).1.pc) < Left(cfg, r.pc)
    ensures r.pc.Done? ==> Local(cfg, sh, r, o).1 == r
  {
    if r.pc.Arrived? || r.pc.Gate? {
      EntryRunsOut(cfg, sh, r, o);
    }
  }

  predicate IsOwn(s: State, step: Step, id: nat) {
    step.Move? && step.id == id && id in s.requests
  }

  function OwnSteps(cfg: Config, s: State, steps: seq<Step>, id: nat): nat {
    if steps == [] then 0
    else
      var n := |steps| - 1;
      OwnSteps(cfg, s, steps[..n], id) + (if IsOwn(Run(cfg, s, steps[..n]), steps[n], id) then 1 else 0)
  }

  lemma OthersLeaveAlone(cfg: Config, s: State, step: Step, id: nat)
    requires id in s.requests && !IsOwn(s, step, id)
    ensures id in Apply(cfg, s, step).requests && Apply(cfg, s, step).requests[id] == s.requests[id]
  {
  }

  /** No request gets stuck or goes on for ever: after at most fifteen of its own steps it is done. */
  lemma {:induction false} EveryRequestEnds(cfg: Config, s: State, steps: seq<Step>, id: nat)
    requires id in s.requests
    ensures var t := Run(cfg, s, steps);
      id in t.requests && (t.requests[id].pc.Done? || OwnSteps(cfg, s, steps, id) + Left(cfg, t.requests[id].pc) <= 15)
  {
    if steps != [] {
      var n := |steps| - 1;
      var before := Run(cfg, s, steps[..n]);
      EveryRequestEnds(cfg, s, steps[..n], id);
      if IsOwn(before, steps[n], id) {
        StepsRunOut(cfg, before.shared, before.requests[id], steps[n].outcome);
      } else {
        OthersLeaveAlone(cfg, before, steps[n], id);
      }
    }
  }

  // ----- what a request has passed on its way to the directory

  /** Beyond the replay check. */
  predicate BeyondReplay(cfg: Config, pc: Pc) {
    pc.Acquire? || pc.Decode? || pc.InDirectory? || pc.Reset?
    || ((pc.Gate? || pc.Record?) && (pc.kind.DirectoryError? || (pc.kind.MalformedRequest? && cfg.transport.Http?)))
  }

  /** A directory call is under way or over. */
  predicate Calls(r: Request) {
    r.pc.InDirectory? || r.heard.Some?
  }

  /** Beyond the decoding of the body. */
  predicate BeyondBody(r: Request) {
    Calls(r) || (r.pc.Gate? && r.pc.kind.DirectoryError?)
  }

  /** The body is well formed and repeats tenant, connector and request id. */
  predicate BodyFits(cfg: Config, i: Input) {
    && i.wellFormed && i.connector in cfg.tenants && i.bodyTenant == cfg.tenants[i.connector].tenantId
    && i.bodyConnector == i.connector && i.bodyRequest == i.requestId
  }

  /** What lies behind a request that has got this far. */
  predicate Passed(cfg: Config, r: Request) {
    && (BeyondReplay(cfg, r.pc) || r.heard.Some? ==> r.place.Some?)
    && (cfg.transport.Http? && BeyondBody(r) ==> BodyFits(cfg, r.input))
  }

  lemma EntryPasses(cfg: Config, sh: Shared, r: Request, o: Outcome)
    requires Passed(cfg, r) && (r.pc.Arrived? || r.pc.Gate?)
    ensures Passed(cfg, Local(cfg, sh, r, o).1)
  {
  }

  lemma DirectoryPasses(cfg: Config, sh: Shared, r: Request, o: Outcome)
    requires Passed(cfg, r) && (r.pc.InDirectory? || r.pc.Reset?)
    ensures Passed(cfg, Local(cfg, sh, r, o).1)
  {
  }

  lemma MiddlePasses(cfg: Config, sh: Shared, r: Request, o: Outcome)
    requires Passed(cfg, r) && (r.pc.Remember? || r.pc.Acquire? || r.pc.Decode?)
    requires cfg.transport.Relay? ==> !r.pc.Decode?
    requires r.heard.None?
    ensures Passed(cfg, Local(cfg, sh, r, o).1)
  {
  }

  lemma LocalPasses(cfg: Config, sh: Shared, r: Request, o: Outcome)
    requires Passed(cfg, r) && Faithful(cfg, r) && (cfg.transport.Relay? ==> !r.pc.Decode?)
    ensures Passed(cfg, Local(cfg, sh, r, o).1)
  {
    if r.pc.Arrived? || r.pc.Gate? {
      EntryPasses(cfg, sh, r, o);
    } else if r.pc.InDirectory? || r.pc.Reset? {
      DirectoryPasses(cfg, sh, r, o);
    } else if r.pc.Remember? || r.pc.Acquire? || r.pc.Decode? {
      MiddlePasses(cfg, sh, r, o);
    }
  }

  /** The body check of every run: a fitting body goes on to the directory's gate, any other is refused as
      malformed or as a mismatch. */
  lemma BodyDecides(cfg: Config, start: Time, steps: seq<Step>, id: nat, o: Outcome)
    requires var s := Run(cfg, Init(cfg, start), steps); id in s.requests && s.requests[id].pc.Decode?
    ensures var s := Run(cfg, Init(cfg, start), steps);
      var i, after := s.requests[id].input, Apply(cfg, s, Move(id, o)).requests[id];
      && s.requests[id].reply == None
      && (after.reply == None && after.pc == Gate(Storm.DirectoryError, None) <==> BodyFits(cfg, i))
      && (after.reply == Some(Refused("malformed_request", false)) <==> !i.wellFormed)
      && (after.reply == Some(Refused("tenant_connector_mismatch", false)) <==> i.wellFormed && !BodyFits(cfg, i))
  {
    EveryRunIsSafe(cfg, start, steps);
    var s := Run(cfg, Init(cfg, start), steps);
    assert RequestOk(cfg, s.shared.clock, s.requests[id]);
    assert "malformed_request" != "tenant_connector_mismatch";
  }

  ghost predicate AllPassed(cfg: Config, s: State) {
    forall id :: id in s.requests ==> Passed(cfg, s.requests[id])
  }

  lemma StepPasses(cfg: Config, s: State, step: Step)
    requires Inv(cfg, s) && AllFaithful(cfg, s) && AllPassed(cfg, s)
    ensures AllPassed(cfg, Apply(cfg, s, step))
  {
    if step.Move? && step.id in s.requests {
      assert RequestOk(cfg, s.shared.clock, s.requests[step.id]) && Passed(cfg, s.requests[step.id]);
      LocalPasses(cfg, s.shared, s.requests[step.id], step.outcome);
    }
  }

  /** In every run a request reaches the directory only after its replay key was accepted and, over HTTP,
      only with a well-formed body that repeats tenant, connector and request id. */
  lemma {:induction false} CallsComeAfterChecks(cfg: Config, start: Time, steps: seq<Step>)
    ensures AllPassed(cfg, Run(cfg, Init(cfg, start), steps))
  {
    if steps != [] {
      var n := |steps| - 1;
      CallsComeAfterChecks(cfg, start, steps[..n]);
      EveryRunIsSafe(cfg, start, steps[..n]);
      EveryRunIsFaithful(cfg, start, steps[..n]);
      StepPasses(cfg, Run(cfg, Init(cfg, start), steps[..n]), steps[n]);
    }
  }
}
