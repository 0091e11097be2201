/** The guarantees of the admission protocol, over every run from the start of the process. */
module AdmissionTheorems {
  import opened Clock
  import opened Wrappers
  import opened Admission
  import opened AdmissionSafety
  import opened Directory
  import opened Audit
  import Metrics
  import Replay
  import Storm
  import Text

  // ----- slots

  /** In every state the semaphore of a connector is filled by exactly the requests that have taken a
      slot and not given it back, never beyond the limit; a finished request has given back exactly what
      it took, and a request that has not reached the semaphore has taken nothing. */
  lemma SlotAccounting(cfg: Config, start: Time, steps: seq<Step>, c: string)
    requires c in cfg.tenants
    ensures var s := Run(cfg, Init(cfg, start), steps);
      && c in s.shared.slots
      && s.shared.slots[c] == |Holders(s.requests, c)| <= cfg.tenants[c].Limit()
      && (forall id :: id in s.requests && s.requests[id].pc.Done? ==>
            s.requests[id].released == s.requests[id].acquired <= 1)
      && (forall id :: id in s.requests && BeforeSlot(cfg, s.requests[id].pc) ==>
            s.requests[id].acquired == 0 == s.requests[id].released)
  {
    EveryRunIsSafe(cfg, start, steps);
  }

  // ----- answers, audit events and metrics

  /** A finished request got exactly one answer and one audit event, and the two agree. */
  lemma OneAnswerOneEvent(cfg: Config, start: Time, steps: seq<Step>, id: nat)
    requires var s := Run(cfg, Init(cfg, start), steps); id in s.requests && s.requests[id].pc.Done?
    ensures var r := Run(cfg, Init(cfg, start), steps).requests[id];
      |r.events| == |r.answers| == 1 && Matches(r.events[0], r.answers[0])
  {
    EveryRunIsSafe(cfg, start, steps);
  }

  /** The HTTP counters add up to the requests that have been answered, all of them once the last is done. */
  lemma MetricsCountRequests(cfg: Config, start: Time, steps: seq<Step>)
    requires cfg.transport.Http?
    ensures var s := Run(cfg, Init(cfg, start), steps);
      && Metrics.Sum(s.shared.counters) == |Decided(s.requests)|
      && ((forall id :: id in s.requests ==> s.requests[id].pc.Done?) ==> Metrics.Sum(s.shared.counters) == |s.requests|)
  {
    EveryRunIsSafe(cfg, start, steps);
    var s := Run(cfg, Init(cfg, start), steps);
    Metrics.TotalIsEvents(s.shared.audit);
    if forall id :: id in s.requests ==> s.requests[id].pc.Done? {
      assert Decided(s.requests) == s.requests.Keys;
    }
  }

  // ----- replays

  /** Past the replay check. */
  predicate Admitted(s: State, id: nat) {
    id in s.requests && s.requests[id].place.Some?
  }

  /** The moment the accepting `Remember` body of a request ran. */
  function AdmittedAt(s: State, id: nat): Time
    requires Admitted(s, id)
  {
    var i := s.requests[id].place.value;
    if i < |s.shared.log| then s.shared.log[i].at else 0
  }

  predicate SameIdentity(a: Input, b: Input) {
    a.connector == b.connector && a.keyId == b.keyId && a.requestId == b.requestId && a.nonce == b.nonce
  }

  /** The clock reading the accepting `Remember` body of a request worked with. */
  function ReadingOf(s: State, id: nat): Time
    requires Admitted(s, id)
  {
    var i := s.requests[id].place.value;
    if i < |s.shared.log| then s.shared.log[i].now else 0
  }

  /** The parts of a replay key, by transport. */
  function KeyParts(cfg: Config, i: Input): seq<string>
    requires i.connector in cfg.tenants
  {
    if cfg.transport.Http? then [i.connector, i.keyId, i.requestId, i.nonce]
    else [cfg.tenants[i.connector].tenantId, i.connector, i.requestId]
  }

  ghost predicate ColonFree(cfg: Config, i: Input)
    requires i.connector in cfg.tenants
  {
    forall k :: 0 <= k < |KeyParts(cfg, i)| ==> Text.Without(KeyParts(cfg, i)[k], ':')
  }

  /** A replay key is its parts joined by colons; for parts without colons it determines them. */
  lemma ReplayKeyHasParts(cfg: Config, a: Input, b: Input)
    requires a.connector in cfg.tenants && b.connector in cfg.tenants
    ensures ReplayKey(cfg, a) == Text.Join(KeyParts(cfg, a), ':')
    ensures ColonFree(cfg, a) && ColonFree(cfg, b) ==>
      (ReplayKey(cfg, a) == ReplayKey(cfg, b) <==> KeyParts(cfg, a) == KeyParts(cfg, b))
  {
    KeyIsJoined(cfg, a);
    KeyIsJoined(cfg, b);
    if ColonFree(cfg, a) && ColonFree(cfg, b) {
      Text.SplitJoin(KeyParts(cfg, a), ':');
      Text.SplitJoin(KeyParts(cfg, b), ':');
    }
  }

  lemma KeyIsJoined(cfg: Config, i: Input)
    requires i.connector in cfg.tenants
    ensures ReplayKey(cfg, i) == Text.Join(KeyParts(cfg, i), ':')
  {
    if cfg.transport.Http? {
      JoinThree(i.keyId, i.requestId, i.nonce);
      assert [i.connector, i.keyId, i.requestId, i.nonce][1..] == [i.keyId, i.requestId, i.nonce];
      assert ReplayKey(cfg, i) == i.connector + ":" + (i.keyId + ":" + i.requestId + ":" + i.nonce);
    } else {
      JoinThree(cfg.tenants[i.connector].tenantId, i.connector, i.requestId);
    }
  }

  lemma JoinThree(a: string, b: string, c: string)
    ensures Text.Join([a, b, c], ':') == a + ":" + b + ":" + c
  {
    assert [a, b, c][1..] == [b, c] && [b, c][1..] == [c];
    assert Text.Join([b, c], ':') == b + ":" + c;
    assert a + ":" + (b + ":" + c) == a + ":" + b + ":" + c;
  }

  /** Both transports: of two requests with the same replay key one is admitted only after the other's
      reading has aged by more than the ttl. */
  lemma AdmissionsAreApart(cfg: Config, start: Time, steps: seq<Step>, a: nat, b: nat)
    requires var s := Run(cfg, Init(cfg, start), steps);
      && a != b && Admitted(s, a) && Admitted(s, b)
      && ReplayKey(cfg, s.requests[a].input) == ReplayKey(cfg, s.requests[b].input)
    ensures var s := Run(cfg, Init(cfg, start), steps);
      var i, j := s.requests[a].place.value, s.requests[b].place.value;
      && i != j
      && (i < j ==> AdmittedAt(s, b) > ReadingOf(s, a) + TTL)
      && (j < i ==> AdmittedAt(s, a) > ReadingOf(s, b) + TTL)
  {
    EveryRunIsSafe(cfg, start, steps);
    var s := Run(cfg, Init(cfg, start), steps);
    var i, j := s.requests[a].place.value, s.requests[b].place.value;
    if i < j {
      Replay.NoSecondAcceptance(s.shared.log, TTL, i, j);
    } else {
      Replay.NoSecondAcceptance(s.shared.log, TTL, j, i);
    }
  }

  /** The reading is not older than the timestamp check. */
  lemma ReadingFollowsCheck(cfg: Config, start: Time, steps: seq<Step>, id: nat)
    requires Admitted(Run(cfg, Init(cfg, start), steps), id)
    ensures var s := Run(cfg, Init(cfg, start), steps);
      && s.requests[id].checkedAt <= ReadingOf(s, id)
      && (cfg.transport.Http? ==> Distance(s.requests[id].checkedAt, s.requests[id].input.timestamp) <= SKEW)
  {
    EveryRunIsSafe(cfg, start, steps);
    var s := Run(cfg, Init(cfg, start), steps);
    assert RequestOk(cfg, s.shared.clock, s.requests[id]);
  }

  /** What the ttl of five minutes leaves after a skew of two minutes on either side. */
  lemma TheMinute()
    ensures TTL - 2 * SKEW == 60_000_000_000 && TTL == 300_000_000_000
  {
  }

  /** HTTP: of all requests with the same connector, key id, request id, nonce and timestamp at most one
      ever gets past the replay check, if each runs its `Remember` body within a minute of its timestamp
      check.  Stale readings and evictions by unrelated requests do not matter. */
  lemma AtMostOnce(cfg: Config, start: Time, steps: seq<Step>, a: nat, b: nat)
    requires cfg.transport.Http? && a != b
    requires var s := Run(cfg, Init(cfg, start), steps);
      && a in s.requests && b in s.requests
      && SameIdentity(s.requests[a].input, s.requests[b].input)
      && s.requests[a].input.timestamp == s.requests[b].input.timestamp
      && (Admitted(s, a) ==> AdmittedAt(s, a) <= s.requests[a].checkedAt + (TTL - 2 * SKEW))
      && (Admitted(s, b) ==> AdmittedAt(s, b) <= s.requests[b].checkedAt + (TTL - 2 * SKEW))
    ensures var s := Run(cfg, Init(cfg, start), steps); !(Admitted(s, a) && Admitted(s, b))
  {
    var s := Run(cfg, Init(cfg, start), steps);
    if Admitted(s, a) && Admitted(s, b) {
      ReadingFollowsCheck(cfg, start, steps, a);
      ReadingFollowsCheck(cfg, start, steps, b);
      AdmissionsAreApart(cfg, start, steps, a, b);
      assert false;
    }
  }

  // ----- the minute cannot be stretched

  const MOVE := Failure(Other)

  lemma {:induction false} RunAppend(cfg: Config, s: State, front: seq<Step>, back: seq<Step>)
    ensures Run(cfg, s, front + back) == Run(cfg, Run(cfg, s, front), back)
    decreases |back|
  {
    var n := |back| - 1;
    if back == [] {
      assert front + back == front;
    } else {
      assert (front + back)[..|front| + n] == front + back[..n];
      RunAppend(cfg, s, front, back[..n]);
    }
  }

  lemma RunOne(cfg: Config, s: State, step: Step)
    ensures Run(cfg, s, [step]) == Apply(cfg, s, step)
  {
    assert [step][..0] == [];
  }

  lemma StepOf(cfg: Config, sh: Shared, others: map<nat, Request>, id: nat, r: Request, e: Effect, r': Request)
    requires Local(cfg, sh, r, MOVE) == (e, r')
    ensures Apply(cfg, State(sh, others[id := r]), Move(id, MOVE))
         == State(Perform(cfg, sh, r'.input.connector, e), others[id := r'])
  {
    assert others[id := r][id := r'] == others[id := r'];
  }

  lemma SilentStep(cfg: Config, sh: Shared, others: map<nat, Request>, id: nat, r: Request, r': Request)
      returns (steps: seq<Step>)
    requires Local(cfg, sh, r, MOVE) == (SILENT, r')
    ensures Run(cfg, State(sh, others[id := r]), steps) == State(sh, others[id := r'])
  {
    steps := [Move(id, MOVE)];
    StepOf(cfg, sh, others, id, r, SILENT, r');
    RunOne(cfg, State(sh, others[id := r]), Move(id, MOVE));
  }

  function Accepting(cfg: Config, sh: Shared, i: Input): Shared {
    sh.(entries := Replay.Remembered(sh.entries, TTL, ReplayKey(cfg, i), sh.clock),
        log := sh.log + [Replay.Call(ReplayKey(cfg, i), sh.clock, sh.clock)])
  }

  lemma AcceptStep(cfg: Config, sh: Shared, others: map<nat, Request>, id: nat, r: Request) returns (steps: seq<Step>)
    requires r.pc == Remember(Some(sh.clock)) && Replay.Accepts(sh.entries, ReplayKey(cfg, r.input), sh.clock)
    ensures Run(cfg, State(sh, others[id := r]), steps)
         == State(Accepting(cfg, sh, r.input), others[id := r.(place := Some(|sh.log|), pc := Acquire)])
  {
    steps := [Move(id, MOVE)];
    var e := SILENT.(call := Some(Replay.Call(ReplayKey(cfg, r.input), sh.clock, sh.clock)));
    StepOf(cfg, sh, others, id, r, e, r.(place := Some(|sh.log|), pc := Acquire));
    RunOne(cfg, State(sh, others[id := r]), Move(id, MOVE));
  }

  lemma TickStep(cfg: Config, s: State, d: Time) returns (steps: seq<Step>)
    ensures Run(cfg, s, steps) == s.(shared := s.shared.(clock := s.shared.clock + d))
  {
    steps := [Tick(d)];
    RunOne(cfg, s, Tick(d));
  }

  lemma ArriveStep(cfg: Config, sh: Shared, others: map<nat, Request>, id: nat, i: Input) returns (steps: seq<Step>)
    requires cfg.transport.Http? && id !in others
    ensures Run(cfg, State(sh, others), steps) == State(sh, others[id := Fresh(i)])
  {
    steps := [Arrive(id, i)];
    RunOne(cfg, State(sh, others), Arrive(id, i));
  }

  predicate Admissible(cfg: Config, sh: Shared, i: Input, d: Time) {
    && cfg.transport.Http? && i.connector in cfg.tenants && i.early == None && i.late == None
    && Distance(sh.clock, i.timestamp) <= SKEW
    && BreakerOf(sh, i.connector, Storm.ReplayAttempt) == Storm.QUIET
    && Replay.Accepts(sh.entries, ReplayKey(cfg, i), sh.clock + d)
  }

  lemma EnterStep(cfg: Config, sh: Shared, others: map<nat, Request>, id: nat, i: Input, d: Time) returns (steps: seq<Step>)
    requires Admissible(cfg, sh, i, d)
    ensures Run(cfg, State(sh, others[id := Fresh(i)]), steps)
         == State(sh, others[id := Fresh(i).(checkedAt := sh.clock, pc := Gate(Storm.ReplayAttempt, None))])
  {
    steps := SilentStep(cfg, sh, others, id, Fresh(i), Fresh(i).(checkedAt := sh.clock, pc := Gate(Storm.ReplayAttempt, None)));
  }

  lemma GateSteps(cfg: Config, sh: Shared, others: map<nat, Request>, id: nat, r: Request) returns (steps: seq<Step>)
    requires r.pc == Gate(Storm.ReplayAttempt, None)
    requires BreakerOf(sh, r.input.connector, Storm.ReplayAttempt) == Storm.QUIET
    ensures Run(cfg, State(sh, others[id := r]), steps) == State(sh, others[id := r.(pc := Remember(None))])
  {
    var read := r.(pc := Gate(Storm.ReplayAttempt, Some(sh.clock)));
    var a := SilentStep(cfg, sh, others, id, r, read);
    var b := SilentStep(cfg, sh, others, id, read, r.(pc := Remember(None)));
    steps := a + b;
    RunAppend(cfg, State(sh, others[id := r]), a, b);
  }

  lemma RememberSteps(cfg: Config, sh: Shared, others: map<nat, Request>, id: nat, r: Request) returns (steps: seq<Step>)
    requires r.pc == Remember(None) && Replay.Accepts(sh.entries, ReplayKey(cfg, r.input), sh.clock)
    ensures Run(cfg, State(sh, others[id := r]), steps)
         == State(Accepting(cfg, sh, r.input), others[id := r.(place := Some(|sh.log|), pc := Acquire)])
  {
    var a := SilentStep(cfg, sh, others, id, r, r.(pc := Remember(Some(sh.clock))));
    var b := AcceptStep(cfg, sh, others, id, r.(pc := Remember(Some(sh.clock))));
    steps := a + b;
    RunAppend(cfg, State(sh, others[id := r]), a, b);
  }

  lemma PassSteps(cfg: Config, sh: Shared, others: map<nat, Request>, id: nat, r: Request) returns (steps: seq<Step>)
    requires r.pc == Gate(Storm.ReplayAttempt, None)
    requires BreakerOf(sh, r.input.connector, Storm.ReplayAttempt) == Storm.QUIET
    requires Replay.Accepts(sh.entries, ReplayKey(cfg, r.input), sh.clock)
    ensures Run(cfg, State(sh, others[id := r]), steps)
         == State(Accepting(cfg, sh, r.input), others[id := r.(place := Some(|sh.log|), pc := Acquire)])
  {
    var a := GateSteps(cfg, sh, others, id, r);
    var b := RememberSteps(cfg, sh, others, id, r.(pc := Remember(None)));
    steps := a + b;
    RunAppend(cfg, State(sh, others[id := r]), a, b);
  }

  function AdmittedRequest(sh: Shared, i: Input): Request {
    Fresh(i).(checkedAt := sh.clock, pc := Acquire, place := Some(|sh.log|))
  }

  function Entered(sh: Shared, i: Input): Request {
    Fresh(i).(checkedAt := sh.clock, pc := Gate(Storm.ReplayAttempt, None))
  }

  lemma EntrySteps(cfg: Config, sh: Shared, others: map<nat, Request>, id: nat, i: Input, d: Time) returns (steps: seq<Step>)
    requires Admissible(cfg, sh, i, d) && id !in others
    ensures Run(cfg, State(sh, others), steps) == State(sh, others[id := Entered(sh, i)])
  {
    var a := ArriveStep(cfg, sh, others, id, i);
    var b := EnterStep(cfg, sh, others, id, i, d);
    RunAppend(cfg, State(sh, others), a, b);
    steps := a + b;
  }

  lemma WaitAndPassSteps(cfg: Config, sh: Shared, others: map<nat, Request>, id: nat, r: Request, d: Time) returns (steps: seq<Step>)
    requires r.pc == Gate(Storm.ReplayAttempt, None)
    requires BreakerOf(sh, r.input.connector, Storm.ReplayAttempt) == Storm.QUIET
    requires Replay.Accepts(sh.entries, ReplayKey(cfg, r.input), sh.clock + d)
    ensures Run(cfg, State(sh, others[id := r]), steps)
         == State(Accepting(cfg, sh.(clock := sh.clock + d), r.input), others[id := r.(place := Some(|sh.log|), pc := Acquire)])
  {
    var a := TickStep(cfg, State(sh, others[id := r]), d);
    var b := PassSteps(cfg, sh.(clock := sh.clock + d), others, id, r);
    RunAppend(cfg, State(sh, others[id := r]), a, b);
    steps := a + b;
  }

  /** A request arrives, passes verification, waits `d`, and runs on to the end of its `Remember` body. */
  lemma AdmitSteps(cfg: Config, sh: Shared, others: map<nat, Request>, id: nat, i: Input, d: Time) returns (steps: seq<Step>)
    requires Admissible(cfg, sh, i, d) && id !in others
    ensures Run(cfg, State(sh, others), steps)
         == State(Accepting(cfg, sh.(clock := sh.clock + d), i), others[id := AdmittedRequest(sh, i)])
  {
    var a := EntrySteps(cfg, sh, others, id, i, d);
    var b := WaitAndPassSteps(cfg, sh, others, id, Entered(sh, i), d);
    RunAppend(cfg, State(sh, others), a, b);
    steps := a + b;
  }

  /** One nanosecond more than a minute and the same signed request can be admitted twice. */
  lemma LateBodyIsAdmittedAgain(cfg: Config, input: Input)
    requires cfg.transport.Http? && input.connector in cfg.tenants && input.early == None && input.late == None
    requires input.timestamp >= SKEW
    ensures exists start, steps :: AdmittedTwice(Run(cfg, Init(cfg, start), steps), input)
  {
    var start := input.timestamp - SKEW;
    var sh := Init(cfg, start).shared;
    assert sh.(clock := start + 0) == sh;
    var a := AdmitSteps(cfg, sh, map[], 0, input, 0);
    var b := SecondCopySteps(cfg, Accepting(cfg, sh, input), AdmittedRequest(sh, input), input);
    RunAppend(cfg, Init(cfg, start), a, b);
    assert AdmittedTwice(Run(cfg, Init(cfg, start), a + b), input);
  }

  /** The second copy arrives at the other end of the skew and is held up a minute and a nanosecond. */
  lemma SecondCopySteps(cfg: Config, sh: Shared, first: Request, input: Input) returns (steps: seq<Step>)
    requires Admissible(cfg, sh.(clock := sh.clock + 2 * SKEW), input, TTL - 2 * SKEW + 1)
    ensures var later := sh.(clock := sh.clock + 2 * SKEW);
      Run(cfg, State(sh, map[0 := first]), steps)
        == State(Accepting(cfg, sh.(clock := sh.clock + TTL + 1), input), map[0 := first][1 := AdmittedRequest(later, input)])
  {
    var later := sh.(clock := sh.clock + 2 * SKEW);
    var a := TickStep(cfg, State(sh, map[0 := first]), 2 * SKEW);
    var b := AdmitSteps(cfg, later, map[0 := first], 1, input, TTL - 2 * SKEW + 1);
    steps := a + b;
    RunAppend(cfg, State(sh, map[0 := first]), a, b);
  }

  predicate AdmittedTwice(s: State, input: Input) {
    && Admitted(s, 0) && Admitted(s, 1)
    && s.requests[0].input == input == s.requests[1].input
    && AdmittedAt(s, 0) == s.requests[0].checkedAt
    && AdmittedAt(s, 1) == s.requests[1].checkedAt + (TTL - 2 * SKEW) + 1
  }

  // ----- the directory breaker

  /** Past the breaker's gate, with a failure still to be recorded. */
  predicate MayStillFail(r: Request) {
    r.pc.InDirectory? || (r.pc.Record? && r.pc.kind.DirectoryError?)
  }

  function Pending(requests: map<nat, Request>, c: string): set<nat> {
    set id | id in requests && requests[id].input.connector == c && MayStillFail(requests[id])
  }

  predicate AtFailure(r: Request) {
    r.pc.Record? && r.pc.kind.DirectoryError? && r.pc.reading.Some?
  }

  /** The step runs the breaker's `record` body for a directory failure on `c`. */
  predicate CountsFailure(s: State, step: Step, c: string) {
    step.Move? && step.id in s.requests && s.requests[step.id].input.connector == c && AtFailure(s.requests[step.id])
  }

  function Counted(s: State, step: Step, c: string): nat {
    if CountsFailure(s, step, c) then 1 else 0
  }

  /** The step lets a request on `c` through to the directory. */
  predicate StartsCall(cfg: Config, s: State, step: Step, c: string) {
    && step.Move? && step.id in s.requests && s.requests[step.id].input.connector == c
    && !s.requests[step.id].pc.InDirectory? && Apply(cfg, s, step).requests[step.id].pc.InDirectory?
  }

  /** The step clears the breaker of `c` for a returned verdict. */
  predicate ClearsBreakerOf(s: State, step: Step, c: string) {
    step.Move? && step.id in s.requests && s.requests[step.id].input.connector == c && s.requests[step.id].pc.Reset?
  }

  function BlockedUntil(s: State, c: string): Time {
    BreakerOf(s.shared, c, Storm.DirectoryError).blockedUntil
  }

  /** What one request's step means for the directory breaker. */
  predicate Disciplined(sh: Shared, r: Request, e: Effect, r': Request) {
    && r'.input == r.input
    && (e.storm.Clear? ==> r.pc.Reset?)
    && (e.storm.Count? ==> r.pc == Record(e.storm.kind, Some(e.storm.now)))
    && (AtFailure(r) ==> !MayStillFail(r'))
    && (MayStillFail(r') && !MayStillFail(r) ==>
          && r.pc.Gate? && r.pc.kind.DirectoryError? && r.pc.reading.Some?
          && !Storm.IsBlocked(BreakerOf(sh, r.input.connector, Storm.DirectoryError), r.pc.reading.value))
  }

  lemma EntryIsDisciplined(cfg: Config, sh: Shared, r: Request, o: Outcome)
    requires r.pc.Arrived? || r.pc.Gate?
    ensures Disciplined(sh, r, Local(cfg, sh, r, o).0, Local(cfg, sh, r, o).1)
  {
  }

  lemma LocalIsDisciplined(cfg: Config, sh: Shared, r: Request, o: Outcome)
    ensures Disciplined(sh, r, Local(cfg, sh, r, o).0, Local(cfg, sh, r, o).1)
  {
    if r.pc.Arrived? || r.pc.Gate? {
      EntryIsDisciplined(cfg, sh, r, o);
    }
  }

  lemma PendingChange(requests: map<nat, Request>, id: nat, r: Request, c: string)
    requires id in requests && r.input == requests[id].input
    requires MayStillFail(r) && r.input.connector == c ==> MayStillFail(requests[id])
    ensures |Pending(requests[id := r], c)| ==
      |Pending(requests, c)| - (if r.input.connector == c && MayStillFail(requests[id]) && !MayStillFail(r) then 1 else 0)
  {
    var before, after := Pending(requests, c), Pending(requests[id := r], c);
    if r.input.connector == c && MayStillFail(requests[id]) && !MayStillFail(r) {
      assert after == before - {id};
    } else {
      assert after == before;
    }
  }

  /** Readings are never ahead of the clock, and the connector has its breakers. */
  ghost predicate Clocked(cfg: Config, s: State, c: string) {
    && c in cfg.tenants && c in s.shared.storms
    && forall id :: id in s.requests ==> ReadingOk(s.requests[id].pc, s.shared.clock)
  }

  lemma BlockedEffect(cfg: Config, s: State, id: nat, e: Effect, r: Request, c: string, reading: Time)
    requires Clocked(cfg, s, c) && id in s.requests
    requires Disciplined(s.shared, s.requests[id], e, r)
    requires s.shared.clock < reading + Block(cfg, c) <= BlockedUntil(s, c)
    requires s.requests[id].input.connector == c ==> !s.requests[id].pc.Reset?
    requires s.requests[id].input.connector == c && AtFailure(s.requests[id]) ==> s.requests[id].pc.reading.value >= reading
    ensures BlockedUntil(AdmissionSafety.After(cfg, s, id, e, r), c) >= reading + Block(cfg, c)
  {
  }

  function Block(cfg: Config, c: string): Time
    requires c in cfg.tenants
  {
    cfg.tenants[c].RuleFor(Storm.DirectoryError).block
  }

  lemma PendingAfter(s: State, id: nat, e: Effect, r: Request, c: string)
    requires id in s.requests && Disciplined(s.shared, s.requests[id], e, r)
    requires MayStillFail(r) && r.input.connector == c ==> MayStillFail(s.requests[id])
    ensures |Pending(s.requests[id := r], c)| + (if r.input.connector == c && AtFailure(s.requests[id]) then 1 else 0)
      <= |Pending(s.requests, c)|
  {
    PendingChange(s.requests, id, r, c);
  }

  /** A request's step keeps the block in place, unless it clears it or records an older failure. */
  lemma BlockedMove(cfg: Config, s: State, id: nat, o: Outcome, c: string, reading: Time)
    requires Clocked(cfg, s, c) && id in s.requests
    requires s.shared.clock < reading + Block(cfg, c) <= BlockedUntil(s, c)
    requires !ClearsBreakerOf(s, Move(id, o), c)
    requires CountsFailure(s, Move(id, o), c) ==> s.requests[id].pc.reading.value >= reading
    ensures BlockedUntil(Apply(cfg, s, Move(id, o)), c) >= reading + Block(cfg, c)
  {
    var (e, r) := Local(cfg, s.shared, s.requests[id], o);
    LocalIsDisciplined(cfg, s.shared, s.requests[id], o);
    BlockedEffect(cfg, s, id, e, r, c, reading);
    assert Apply(cfg, s, Move(id, o)) == AdmissionSafety.After(cfg, s, id, e, r);
  }

  lemma BlockedStep(cfg: Config, s: State, step: Step, c: string, reading: Time)
    requires Clocked(cfg, s, c)
    requires s.shared.clock < reading + Block(cfg, c) <= BlockedUntil(s, c)
    requires !ClearsBreakerOf(s, step, c)
    requires CountsFailure(s, step, c) ==> s.requests[step.id].pc.reading.value >= reading
    ensures BlockedUntil(Apply(cfg, s, step), c) >= reading + Block(cfg, c)
  {
    if step.Move? && step.id in s.requests {
      BlockedMove(cfg, s, step.id, step.outcome, c, reading);
    }
  }

  /** The state before step `k` of a span. */
  function At(cfg: Config, s: State, span: seq<Step>, k: nat): State
    requires k <= |span|
  {
    Run(cfg, s, span[..k])
  }

  function Failures(cfg: Config, s: State, span: seq<Step>, c: string): nat {
    if span == [] then 0
    else
      var n := |span| - 1;
      Failures(cfg, s, span[..n], c) + Counted(At(cfg, s, span, n), span[n], c)
  }

  /** No verdict clears the breaker of `c`, and failures on `c` are recorded with readings in lock order,
      none older than `reading`. */
  ghost predicate Unbroken(cfg: Config, s: State, span: seq<Step>, c: string, reading: Time) {
    forall k {:trigger span[k]} :: 0 <= k < |span| ==> UnbrokenAt(At(cfg, s, span, k), span[k], c, reading)
  }

  predicate UnbrokenAt(s: State, step: Step, c: string, reading: Time) {
    && !ClearsBreakerOf(s, step, c)
    && (CountsFailure(s, step, c) ==> s.requests[step.id].pc.reading.value >= reading)
  }

  /** No step of the span lets a request on `c` through to the directory. */
  ghost predicate NobodyPasses(cfg: Config, s: State, span: seq<Step>, c: string) {
    forall k {:trigger span[k]} :: 0 <= k < |span| ==> !StartsCall(cfg, At(cfg, s, span, k), span[k], c)
  }

  lemma InvIsClocked(cfg: Config, s: State, c: string)
    requires Inv(cfg, s) && c in cfg.tenants
    ensures Clocked(cfg, s, c)
  {
    forall id | id in s.requests ensures ReadingOk(s.requests[id].pc, s.shared.clock) {
      assert RequestOk(cfg, s.shared.clock, s.requests[id]);
    }
  }

  lemma UnbrokenFront(cfg: Config, s: State, span: seq<Step>, c: string, reading: Time)
    requires span != [] && Unbroken(cfg, s, span, c, reading)
    ensures Unbroken(cfg, s, span[..|span| - 1], c, reading)
    ensures UnbrokenAt(Run(cfg, s, span[..|span| - 1]), span[|span| - 1], c, reading)
  {
    var n := |span| - 1;
    var front := span[..n];
    forall k {:trigger front[k]} | 0 <= k < n ensures UnbrokenAt(At(cfg, s, front, k), front[k], c, reading) {
      assert front[k] == span[k] && front[..k] == span[..k];
    }
    assert UnbrokenAt(At(cfg, s, span, n), span[n], c, reading);
  }

  lemma PassFront(cfg: Config, s: State, span: seq<Step>, c: string)
    requires span != [] && NobodyPasses(cfg, s, span[..|span| - 1], c)
    requires !StartsCall(cfg, Run(cfg, s, span[..|span| - 1]), span[|span| - 1], c)
    ensures NobodyPasses(cfg, s, span, c)
  {
    var n := |span| - 1;
    var front := span[..n];
    forall k {:trigger span[k]} | 0 <= k < |span| ensures !StartsCall(cfg, At(cfg, s, span, k), span[k], c) {
      if k < n {
        assert front[k] == span[k] && front[..k] == span[..k];
      }
    }
  }

  lemma ClockMovesForward(cfg: Config, s: State, step: Step)
    ensures s.shared.clock <= Apply(cfg, s, step).shared.clock
  {
  }

  /** Under ordered readings a block stands for its whole time: a failure recorded later only moves it out. */
  lemma {:induction false} BlockStands(cfg: Config, s: State, span: seq<Step>, c: string, reading: Time)
    requires Inv(cfg, s) && c in cfg.tenants && Unbroken(cfg, s, span, c, reading)
    requires reading + Block(cfg, c) <= BlockedUntil(s, c)
    requires Run(cfg, s, span).shared.clock < reading + Block(cfg, c)
    ensures Inv(cfg, Run(cfg, s, span)) && BlockedUntil(Run(cfg, s, span), c) >= reading + Block(cfg, c)
    ensures Stands(cfg, s, span, c)
  {
    if span != [] {
      var n := |span| - 1;
      var before := Run(cfg, s, span[..n]);
      ClockMovesForward(cfg, before, span[n]);
      UnbrokenFront(cfg, s, span, c, reading);
      BlockStands(cfg, s, span[..n], c, reading);
      InvIsClocked(cfg, before, c);
      BlockedStep(cfg, before, span[n], c, reading);
      ApplyKeeps(cfg, before, span[n]);
    }
    StandsBack(cfg, s, span, c);
  }

  /** The breaker of `c` is open now. */
  predicate Open(s: State, c: string) {
    s.shared.clock < BlockedUntil(s, c)
  }

  /** The breaker of `c` is open in every state of the span: the block neither lapses nor is cleared. */
  predicate Stands(cfg: Config, s: State, span: seq<Step>, c: string) {
    Open(Run(cfg, s, span), c) && (span != [] ==> Stands(cfg, s, span[..|span| - 1], c))
  }

  lemma StandsBack(cfg: Config, s: State, span: seq<Step>, c: string)
    requires Open(Run(cfg, s, span), c) && (span != [] ==> Stands(cfg, s, span[..|span| - 1], c))
    ensures Stands(cfg, s, span, c)
  {
  }

  lemma OpenMove(cfg: Config, s: State, id: nat, o: Outcome, c: string)
    requires Clocked(cfg, s, c) && id in s.requests && Open(s, c)
    ensures !StartsCall(cfg, s, Move(id, o), c)
    ensures |Pending(Apply(cfg, s, Move(id, o)).requests, c)| + Counted(s, Move(id, o), c) <= |Pending(s.requests, c)|
  {
    var (e, r) := Local(cfg, s.shared, s.requests[id], o);
    LocalIsDisciplined(cfg, s.shared, s.requests[id], o);
    OpenGate(cfg, s, id, e, r, c);
    PendingAfter(s, id, e, r, c);
    assert Apply(cfg, s, Move(id, o)).requests == s.requests[id := r];
  }

  lemma OpenGate(cfg: Config, s: State, id: nat, e: Effect, r: Request, c: string)
    requires Clocked(cfg, s, c) && id in s.requests && Open(s, c) && Disciplined(s.shared, s.requests[id], e, r)
    ensures MayStillFail(r) && r.input.connector == c ==> MayStillFail(s.requests[id])
  {
  }

  /** While the breaker of `c` is open no step gets anybody through, and a recorded failure uses up one of
      the calls that were already past the gate. */
  lemma OpenStep(cfg: Config, s: State, step: Step, c: string)
    requires Clocked(cfg, s, c) && Open(s, c)
    ensures !StartsCall(cfg, s, step, c)
    ensures |Pending(Apply(cfg, s, step).requests, c)| + Counted(s, step, c) <= |Pending(s.requests, c)|
  {
    match step
    case Tick(elapsed) =>
    case Arrive(id, input) =>
      assert Pending(Apply(cfg, s, step).requests, c) == Pending(s.requests, c);
    case Move(id, o) =>
      if id in s.requests {
        OpenMove(cfg, s, id, o, c);
      }
  }

  /** Over any span through which the breaker of `c` is open, however often it is pushed out, nobody gets
      through and the failures are bounded by the calls in flight at its start. */
  lemma {:induction false} OpenBreakerHolds(cfg: Config, s: State, span: seq<Step>, c: string)
    requires Inv(cfg, s) && c in cfg.tenants && Stands(cfg, s, span, c)
    ensures Inv(cfg, Run(cfg, s, span)) && NobodyPasses(cfg, s, span, c)
    ensures Failures(cfg, s, span, c) + |Pending(Run(cfg, s, span).requests, c)| <= |Pending(s.requests, c)|
  {
    if span != [] {
      var n := |span| - 1;
      var before := Run(cfg, s, span[..n]);
      OpenBreakerHolds(cfg, s, span[..n], c);
      InvIsClocked(cfg, before, c);
      assert Open(before, c);
      OpenStep(cfg, before, span[n], c);
      ApplyKeeps(cfg, before, span[n]);
      PassFront(cfg, s, span, c);
    }
  }

  /** Every call past the gate holds a slot, and so does the request that has just recorded its failure. */
  lemma PendingHoldSlots(cfg: Config, s: State, c: string, id: nat)
    requires RequestsOk(cfg, s) && SlotsOk(cfg, s) && c in cfg.tenants
    requires id in s.requests && s.requests[id].input.connector == c && Holds(s.requests[id]) && !MayStillFail(s.requests[id])
    ensures |Pending(s.requests, c)| <= cfg.tenants[c].Limit() - 1
  {
    var pending, holders := Pending(s.requests, c), Holders(s.requests, c);
    forall i | i in pending ensures i in holders - {id} {
      assert SlotOk(cfg, s.requests[i]);
    }
    CardinalityMonotone(pending, holders - {id});
    assert |holders - {id}| == |holders| - 1;
  }

  /** The request that records a failure keeps its slot over that step and cannot record another. */
  lemma RecorderKeepsSlot(cfg: Config, s: State, id: nat, o: Outcome)
    requires id in s.requests && SlotOk(cfg, s.requests[id]) && AtFailure(s.requests[id])
    ensures var r := Apply(cfg, s, Move(id, o)).requests[id];
      r.input == s.requests[id].input && Holds(r) && !MayStillFail(r)
  {
  }

  /** Once a directory failure on `c` is recorded and the breaker is open, then until the block lapses or a
      verdict clears it, and however often it is pushed out meanwhile, no request is let through to the
      directory and at most `limit - 1` further failures are recorded. */
  lemma BreakerBoundsFailures(cfg: Config, start: Time, prefix: seq<Step>, step: Step, span: seq<Step>, c: string)
    requires c in cfg.tenants && CountsFailure(Run(cfg, Init(cfg, start), prefix), step, c)
    requires Stands(cfg, Apply(cfg, Run(cfg, Init(cfg, start), prefix), step), span, c)
    ensures var tripped := Apply(cfg, Run(cfg, Init(cfg, start), prefix), step);
      Failures(cfg, tripped, span, c) <= cfg.tenants[c].Limit() - 1 && NobodyPasses(cfg, tripped, span, c)
  {
    EveryRunIsSafe(cfg, start, prefix);
    OpenAfterFailure(cfg, Run(cfg, Init(cfg, start), prefix), step, span, c);
  }

  lemma OpenAfterFailure(cfg: Config, s: State, step: Step, span: seq<Step>, c: string)
    requires Inv(cfg, s) && c in cfg.tenants && CountsFailure(s, step, c) && Stands(cfg, Apply(cfg, s, step), span, c)
    ensures var tripped := Apply(cfg, s, step);
      Failures(cfg, tripped, span, c) <= cfg.tenants[c].Limit() - 1 && NobodyPasses(cfg, tripped, span, c)
  {
    var tripped := Apply(cfg, s, step);
    assert SlotOk(cfg, s.requests[step.id]) by {
      assert RequestOk(cfg, s.shared.clock, s.requests[step.id]);
    }
    ApplyKeeps(cfg, s, step);
    RecorderKeepsSlot(cfg, s, step.id, step.outcome);
    OpenBreakerHolds(cfg, tripped, span, c);
    PendingHoldSlots(cfg, tripped, c, step.id);
  }

  /** The block that a failure sets does stand, up to `block` after its reading, if no verdict clears it and
      later failures are recorded with readings that are not older. */
  lemma TrippedBreakerStands(cfg: Config, start: Time, prefix: seq<Step>, step: Step, span: seq<Step>, c: string)
    requires c in cfg.tenants && CountsFailure(Run(cfg, Init(cfg, start), prefix), step, c)
    requires var s := Run(cfg, Init(cfg, start), prefix);
      var reading, tripped := s.requests[step.id].pc.reading.value, Apply(cfg, s, step);
      && BlockedUntil(tripped, c) == reading + Block(cfg, c)
      && Unbroken(cfg, tripped, span, c, reading)
      && Run(cfg, tripped, span).shared.clock < reading + Block(cfg, c)
    ensures Stands(cfg, Apply(cfg, Run(cfg, Init(cfg, start), prefix), step), span, c)
  {
    var s := Run(cfg, Init(cfg, start), prefix);
    EveryRunIsSafe(cfg, start, prefix);
    ApplyKeeps(cfg, s, step);
    BlockStands(cfg, Apply(cfg, s, step), span, c, s.requests[step.id].pc.reading.value);
  }

  lemma {:induction false} CardinalityMonotone(a: set<nat>, b: set<nat>)
    requires a <= b
    ensures |a| <= |b|
  {
    if a != {} {
      var x :| x in a;
      CardinalityMonotone(a - {x}, b - {x});
    }
  }
}
