/** What holds in every state of every run of the admission machine. */
module AdmissionSafety {
  import opened Clock
  import opened Wrappers
  import opened Admission
  import opened Directory
  import opened Audit
  import Metrics
  import Replay
  import Storm

  // ----- what is true of one request

  /** No slot has been taken yet. */
  predicate BeforeSlot(cfg: Config, pc: Pc) {
    match pc
    case Arrived => true
    case Gate(kind, _) => kind.ReplayAttempt? || (kind.MalformedRequest? && cfg.transport.Relay?)
    case Record(kind, _) => kind.ReplayAttempt? || (kind.MalformedRequest? && cfg.transport.Relay?)
    case Remember(_) => true
    case Acquire => true
    case _ => false
  }

  predicate Undecided(pc: Pc) {
    !pc.Record? && !pc.Return? && !pc.Done?
  }

  predicate Holds(r: Request) {
    r.acquired > r.released
  }

  predicate SlotOk(cfg: Config, r: Request) {
    && r.released <= r.acquired <= 1
    && (BeforeSlot(cfg, r.pc) ==> r.acquired == 0)
    && (!BeforeSlot(cfg, r.pc) && !r.pc.Return? && !r.pc.Done? ==> r.acquired == 1)
    && (r.pc.Done? ==> r.released == r.acquired)
    && (!r.pc.Done? ==> r.released == 0)
    && (r.acquired == 1 ==> r.input.connector in cfg.tenants)
  }

  predicate AnswerOk(cfg: Config, r: Request) {
    if Undecided(r.pc) then r.events == [] && r.answers == [] && r.reply == None
    else
      && |r.events| == 1 && r.reply.Some? && Matches(r.events[0], r.reply.value)
      && r.answers == (if cfg.transport.Http? || r.pc.Done? then [r.reply.value] else [])
  }

  predicate ReadingOk(pc: Pc, clock: Time) {
    match pc
    case Gate(_, Some(now)) => now <= clock
    case Remember(Some(now)) => now <= clock
    case Record(_, Some(now)) => now <= clock
    case _ => true
  }

  predicate AwaitsRemember(pc: Pc) {
    pc.Remember? || (pc.Gate? && pc.kind.ReplayAttempt?)
  }

  /** A request past its skew check was within the skew then, and reads the clock for `Remember` later. */
  predicate TimingOk(cfg: Config, clock: Time, r: Request) {
    && r.checkedAt <= clock
    && ReadingOk(r.pc, clock)
    && (r.pc.Remember? && r.pc.reading.Some? ==> r.checkedAt <= r.pc.reading.value)
    && (cfg.transport.Http? && (r.place.Some? || AwaitsRemember(r.pc)) ==> Distance(r.checkedAt, r.input.timestamp) <= SKEW)
    && (r.pc.Arrived? || AwaitsRemember(r.pc) ==> r.place == None)
  }

  predicate RequestOk(cfg: Config, clock: Time, r: Request) {
    SlotOk(cfg, r) && AnswerOk(cfg, r) && TimingOk(cfg, clock, r)
      && (cfg.transport.Relay? ==> r.input.connector in cfg.tenants && !r.pc.Decode?)
  }

  // ----- what is true of the whole state

  function Holders(requests: map<nat, Request>, c: string): set<nat> {
    set id | id in requests && requests[id].input.connector == c && Holds(requests[id])
  }

  function Decided(requests: map<nat, Request>): set<nat> {
    set id | id in requests && requests[id].events != []
  }

  ghost predicate SlotsOk(cfg: Config, s: State) {
    && s.shared.slots.Keys == cfg.tenants.Keys
    && forall c :: c in cfg.tenants ==>
         s.shared.slots[c] == |Holders(s.requests, c)| <= cfg.tenants[c].Limit()
  }

  ghost predicate RequestsOk(cfg: Config, s: State) {
    forall id :: id in s.requests ==> RequestOk(cfg, s.shared.clock, s.requests[id])
  }

  /** The cache is what the log says, and every admitted request has its own accepted place in it. */
  ghost predicate ReplayOk(cfg: Config, s: State) {
    var sh := s.shared;
    && sh.entries == Replay.After(sh.log, TTL)
    && Replay.LockOrder(sh.log)
    && (forall i :: 0 <= i < |sh.log| ==> sh.log[i].at <= sh.clock)
    && (forall id :: id in s.requests && s.requests[id].place.Some? ==> PlaceOk(cfg, sh.log, s.requests[id]))
    && (forall a, b :: a in s.requests && b in s.requests && a != b && s.requests[a].place.Some?
                       ==> s.requests[a].place != s.requests[b].place)
  }

  predicate PlaceOk(cfg: Config, log: seq<Replay.Call>, r: Request)
    requires r.place.Some?
  {
    var i := r.place.value;
    i < |log| && Replay.Accepted(log, TTL, i) && log[i].key == ReplayKey(cfg, r.input) && r.checkedAt <= log[i].now
  }

  ghost predicate AuditOk(cfg: Config, s: State) {
    && (cfg.transport.Http? ==> s.shared.counters == Metrics.After(s.shared.audit))
    && |s.shared.audit| == |Decided(s.requests)|
  }

  ghost predicate Inv(cfg: Config, s: State) {
    && s.shared.storms.Keys == cfg.tenants.Keys
    && RequestsOk(cfg, s) && SlotsOk(cfg, s) && AuditOk(cfg, s)
    && ReplayOk(cfg, s)
  }

  // ----- one step of one request

  lemma DecideKeeps(cfg: Config, clock: Time, r: Request, e: Event, a: Answer, pc: Pc)
    requires RequestOk(cfg, clock, r) && Undecided(r.pc) && Matches(e, a)
    requires pc == Return || (pc.Record? && pc.reading == None && BeforeSlot(cfg, pc) == BeforeSlot(cfg, r.pc))
    ensures RequestOk(cfg, clock, Decide(cfg, r, e, a, pc).1)
  {
  }

  lemma EnterKeeps(cfg: Config, sh: Shared, r: Request)
    requires RequestOk(cfg, sh.clock, r) && r.pc.Arrived?
    ensures RequestOk(cfg, sh.clock, Enter(cfg, sh, r).1)
  {
  }

  lemma PassGateKeeps(cfg: Config, sh: Shared, r: Request, kind: Storm.Kind, now: Time)
    requires RequestOk(cfg, sh.clock, r) && r.pc == Gate(kind, Some(now))
    ensures RequestOk(cfg, sh.clock, PassGate(cfg, sh, r, kind, now).1)
  {
  }

  lemma RememberKeeps(cfg: Config, sh: Shared, r: Request, now: Time)
    requires RequestOk(cfg, sh.clock, r) && r.pc == Remember(Some(now))
    ensures RequestOk(cfg, sh.clock, RememberBody(cfg, sh, r, now).1)
  {
  }

  lemma ConcludeMatches(cfg: Config, r: Request, o: Outcome)
    ensures Matches(Conclude(cfg, r, o).event, Conclude(cfg, r, o).answer)
  {
    var c := r.input.connector;
    ConclusionsAgree(if c in cfg.tenants then cfg.tenants[c].tenantId else "", c, o);
  }

  lemma DirectoryKeeps(cfg: Config, clock: Time, r: Request, o: Outcome)
    requires RequestOk(cfg, clock, r)
    ensures r.pc.InDirectory? ==> RequestOk(cfg, clock, DirectoryReturns(cfg, r, o).1)
    ensures r.pc.Reset? ==> RequestOk(cfg, clock, ClearBreaker(cfg, r, o).1)
  {
    ConcludeMatches(cfg, r, o);
    var con := Conclude(cfg, r, o);
    if r.pc.InDirectory? {
      DecideKeeps(cfg, clock, r, con.event, con.answer, Record(Storm.DirectoryError, None));
    } else if r.pc.Reset? {
      DecideKeeps(cfg, clock, r, con.event, con.answer, Return);
    }
  }

  lemma AcquireKeeps(cfg: Config, sh: Shared, r: Request)
    requires RequestOk(cfg, sh.clock, r) && r.pc.Acquire?
    ensures RequestOk(cfg, sh.clock, TakeSlot(cfg, sh, r).1)
  {
  }

  lemma DecodeKeeps(cfg: Config, clock: Time, r: Request)
    requires RequestOk(cfg, clock, r) && r.pc.Decode?
    ensures RequestOk(cfg, clock, DecodeBody(cfg, r).1)
  {
  }

  lemma LeaveKeeps(cfg: Config, clock: Time, r: Request)
    requires RequestOk(cfg, clock, r) && r.pc.Return?
    ensures RequestOk(cfg, clock, Leave(cfg, r).1)
  {
  }

  lemma QuietStepsKeep(cfg: Config, sh: Shared, r: Request, o: Outcome)
    requires RequestOk(cfg, sh.clock, r)
    requires r.pc.Record? || r.pc.Done? || ((r.pc.Gate? || r.pc.Remember?) && r.pc.reading.None?)
    ensures RequestOk(cfg, sh.clock, Local(cfg, sh, r, o).1)
  {
  }

  lemma LocalKeepsRequest(cfg: Config, sh: Shared, r: Request, o: Outcome)
    requires RequestOk(cfg, sh.clock, r)
    ensures RequestOk(cfg, sh.clock, Local(cfg, sh, r, o).1)
  {
    match r.pc
    case Arrived => EnterKeeps(cfg, sh, r);
    case Gate(kind, Some(now)) => PassGateKeeps(cfg, sh, r, kind, now);
    case Remember(Some(now)) => RememberKeeps(cfg, sh, r, now);
    case Acquire => AcquireKeeps(cfg, sh, r);
    case Decode => DecodeKeeps(cfg, sh.clock, r);
    case InDirectory => DirectoryKeeps(cfg, sh.clock, r, o);
    case Reset(outcome) => DirectoryKeeps(cfg, sh.clock, r, outcome);
    case Return => LeaveKeeps(cfg, sh.clock, r);
    case _ => QuietStepsKeep(cfg, sh, r, o);
  }

  function Held(r: Request): nat {
    if Holds(r) then 1 else 0
  }

  /** What a step asks of the semaphore is exactly the change in the request's own hold on it, and a
      slot is taken only where one is free. */
  predicate MovesSlot(cfg: Config, sh: Shared, r: Request, e: Effect, r': Request) {
    var c := r.input.connector;
    && r'.input == r.input
    && Held(r') - Held(r) == (match e.slot case Stay => 0 case Take => 1 case Give => -1)
    && (e.slot.Take? ==> c in sh.slots && c in cfg.tenants && sh.slots[c] < cfg.tenants[c].Limit())
  }

  /** Either nothing is emitted, or exactly one event, the request's only one. */
  predicate Emits(r: Request, e: Effect, r': Request) {
    r'.events == r.events + (if e.emitted.Some? then [e.emitted.value] else [])
  }

  /** Only an accepted `Remember` body gives a place, the next one in the log. */
  predicate Remembers(cfg: Config, sh: Shared, r: Request, e: Effect, r': Request) {
    && r'.input == r.input
    && (r'.checkedAt == r.checkedAt || r.pc.Arrived?)
    && (e.call == None ==> r'.place == r.place)
    && (e.call.Some? ==>
          && r.pc.Remember? && r.pc.reading.Some?
          && e.call.value == Replay.Call(ReplayKey(cfg, r.input), r.pc.reading.value, sh.clock)
          && r'.place == (if Replay.Accepts(sh.entries, e.call.value.key, e.call.value.now) then Some(|sh.log|) else None))
  }

  /** What a step does to semaphore, audit log and cache agrees with what it does to the request. */
  predicate Regular(cfg: Config, sh: Shared, r: Request, step: (Effect, Request)) {
    MovesSlot(cfg, sh, r, step.0, step.1) && Emits(r, step.0, step.1) && Remembers(cfg, sh, r, step.0, step.1)
  }

  lemma EnterIsRegular(cfg: Config, sh: Shared, r: Request)
    requires SlotOk(cfg, r) && TimingOk(cfg, sh.clock, r) && r.pc.Arrived?
    ensures Regular(cfg, sh, r, Enter(cfg, sh, r))
  {
  }

  lemma GateIsRegular(cfg: Config, sh: Shared, r: Request, now: Time)
    requires SlotOk(cfg, r) && TimingOk(cfg, sh.clock, r) && r.pc.Gate?
    ensures Regular(cfg, sh, r, PassGate(cfg, sh, r, r.pc.kind, now))
  {
  }

  lemma RememberIsRegular(cfg: Config, sh: Shared, r: Request, now: Time)
    requires SlotOk(cfg, r) && TimingOk(cfg, sh.clock, r) && r.pc == Remember(Some(now))
    ensures Regular(cfg, sh, r, RememberBody(cfg, sh, r, now))
  {
  }

  lemma AcquireIsRegular(cfg: Config, sh: Shared, r: Request)
    requires SlotOk(cfg, r) && TimingOk(cfg, sh.clock, r) && r.pc.Acquire?
    ensures Regular(cfg, sh, r, TakeSlot(cfg, sh, r))
  {
  }

  lemma DecodeIsRegular(cfg: Config, sh: Shared, r: Request)
    requires SlotOk(cfg, r) && TimingOk(cfg, sh.clock, r) && r.pc.Decode?
    ensures Regular(cfg, sh, r, DecodeBody(cfg, r))
  {
  }

  lemma ReturnIsRegular(cfg: Config, sh: Shared, r: Request, o: Outcome)
    requires SlotOk(cfg, r) && TimingOk(cfg, sh.clock, r) && r.pc.InDirectory?
    ensures Regular(cfg, sh, r, DirectoryReturns(cfg, r, o))
  {
  }

  lemma ClearIsRegular(cfg: Config, sh: Shared, r: Request, o: Outcome)
    requires SlotOk(cfg, r) && TimingOk(cfg, sh.clock, r) && r.pc.Reset?
    ensures Regular(cfg, sh, r, ClearBreaker(cfg, r, o))
  {
  }

  lemma LeaveIsRegular(cfg: Config, sh: Shared, r: Request)
    requires SlotOk(cfg, r) && TimingOk(cfg, sh.clock, r) && r.pc.Return?
    ensures Regular(cfg, sh, r, Leave(cfg, r))
  {
  }

  lemma LocalIsRegular(cfg: Config, sh: Shared, r: Request, o: Outcome)
    requires SlotOk(cfg, r) && TimingOk(cfg, sh.clock, r)
    ensures Regular(cfg, sh, r, Local(cfg, sh, r, o))
  {
    match r.pc
    case Arrived => EnterIsRegular(cfg, sh, r);
    case Gate(_, Some(now)) => GateIsRegular(cfg, sh, r, now);
    case Remember(Some(now)) => RememberIsRegular(cfg, sh, r, now);
    case Acquire => AcquireIsRegular(cfg, sh, r);
    case Decode => DecodeIsRegular(cfg, sh, r);
    case InDirectory => ReturnIsRegular(cfg, sh, r, o);
    case Reset(outcome) => ClearIsRegular(cfg, sh, r, outcome);
    case Return => LeaveIsRegular(cfg, sh, r);
    case _ =>
  }

  /** All that the shared state needs to know about one step. */
  predicate Lawful(cfg: Config, sh: Shared, r: Request, e: Effect, r': Request) {
    RequestOk(cfg, sh.clock, r') && Regular(cfg, sh, r, (e, r'))
  }

  lemma LocalIsLawful(cfg: Config, sh: Shared, r: Request, o: Outcome)
    requires RequestOk(cfg, sh.clock, r)
    ensures Lawful(cfg, sh, r, Local(cfg, sh, r, o).0, Local(cfg, sh, r, o).1)
  {
    LocalKeepsRequest(cfg, sh, r, o);
    LocalIsRegular(cfg, sh, r, o);
  }

  // ----- one step of the whole machine

  lemma SizeWithout(s: set<nat>, id: nat)
    ensures |s| == |s - {id}| + (if id in s then 1 else 0)
  {
  }

  lemma HoldersChange(requests: map<nat, Request>, id: nat, r: Request, c: string)
    requires id in requests && r.input == requests[id].input
    ensures |Holders(requests[id := r], c)| ==
      |Holders(requests, c)| + (if r.input.connector == c then Held(r) - Held(requests[id]) else 0)
  {
    var before, after := Holders(requests, c), Holders(requests[id := r], c);
    assert forall i :: i != id ==> (i in before <==> i in after);
    SizeWithout(before, id);
    SizeWithout(after, id);
    assert before - {id} == after - {id};
  }

  lemma DecidedChange(requests: map<nat, Request>, id: nat, r: Request)
    requires id in requests ==> requests[id].events == []
    requires id !in requests ==> r.events == []
    ensures |Decided(requests[id := r])| == |Decided(requests)| + (if r.events != [] then 1 else 0)
  {
    var before, after := Decided(requests), Decided(requests[id := r]);
    assert after == if r.events != [] then before + {id} else before;
  }

  function After(cfg: Config, s: State, id: nat, e: Effect, r: Request): State {
    State(Perform(cfg, s.shared, r.input.connector, e), s.requests[id := r])
  }

  lemma SlotStep(cfg: Config, s: State, id: nat, e: Effect, r: Request)
    requires SlotsOk(cfg, s) && id in s.requests && MovesSlot(cfg, s.shared, s.requests[id], e, r)
    ensures SlotsOk(cfg, After(cfg, s, id, e, r))
  {
    var c := r.input.connector;
    if e.slot.Give? {
      assert id in Holders(s.requests, c);
    }
    forall d | d in cfg.tenants
      ensures SlotsAfter(s.shared, c, e.slot)[d] == |Holders(s.requests[id := r], d)| <= cfg.tenants[d].Limit()
    {
      HoldersChange(s.requests, id, r, d);
    }
  }

  lemma ReplayStep(cfg: Config, s: State, id: nat, e: Effect, r: Request)
    requires ReplayOk(cfg, s) && id in s.requests && TimingOk(cfg, s.shared.clock, s.requests[id])
    requires Remembers(cfg, s.shared, s.requests[id], e, r)
    ensures ReplayOk(cfg, After(cfg, s, id, e, r))
  {
    var sh := s.shared;
    if e.call.Some? {
      Replay.LogGrows(sh.log, TTL, e.call.value);
    }
  }

  lemma AuditStep(cfg: Config, s: State, id: nat, e: Effect, r: Request)
    requires AuditOk(cfg, s) && id in s.requests
    requires |r.events| <= 1 && Emits(s.requests[id], e, r)
    ensures AuditOk(cfg, After(cfg, s, id, e, r))
  {
    var audit := s.shared.audit;
    if e.emitted.Some? {
      DecidedChange(s.requests, id, r);
      assert (audit + [e.emitted.value])[..|audit|] == audit;
    } else {
      assert Decided(s.requests[id := r]) == Decided(s.requests);
    }
  }

  lemma TickKeeps(cfg: Config, s: State, elapsed: Time)
    requires Inv(cfg, s)
    ensures Inv(cfg, Apply(cfg, s, Tick(elapsed)))
  {
  }

  lemma ArrivalIsLawful(cfg: Config, s: State, id: nat, input: Input)
    requires RequestsOk(cfg, s) && SlotsOk(cfg, s) && AuditOk(cfg, s) && id !in s.requests
    requires cfg.transport.Relay? ==> input.connector in cfg.tenants
    ensures var s' := s.(requests := s.requests[id := Fresh(input)]);
      RequestsOk(cfg, s') && SlotsOk(cfg, s') && AuditOk(cfg, s')
  {
    var requests := s.requests[id := Fresh(input)];
    forall c ensures Holders(requests, c) == Holders(s.requests, c) {
      assert forall i :: i in Holders(requests, c) <==> i in Holders(s.requests, c);
    }
    DecidedChange(s.requests, id, Fresh(input));
  }

  lemma ArrivalKeepsReplay(cfg: Config, s: State, id: nat, input: Input)
    requires ReplayOk(cfg, s) && id !in s.requests
    ensures ReplayOk(cfg, s.(requests := s.requests[id := Fresh(input)]))
  {
  }

  lemma ArriveKeeps(cfg: Config, s: State, id: nat, input: Input)
    requires Inv(cfg, s)
    ensures Inv(cfg, Apply(cfg, s, Arrive(id, input)))
  {
    if id !in s.requests && (cfg.transport.Relay? ==> input.connector in cfg.tenants) {
      ArrivalIsLawful(cfg, s, id, input);
      ArrivalKeepsReplay(cfg, s, id, input);
    }
  }

  lemma RequestsStep(cfg: Config, s: State, id: nat, e: Effect, r: Request)
    requires RequestsOk(cfg, s) && id in s.requests && RequestOk(cfg, s.shared.clock, r)
    ensures RequestsOk(cfg, After(cfg, s, id, e, r))
  {
    var requests := s.requests[id := r];
    forall i | i in requests ensures RequestOk(cfg, s.shared.clock, requests[i]) {
      assert i == id || requests[i] == s.requests[i];
    }
  }

  lemma LawfulStepKeeps(cfg: Config, s: State, id: nat, e: Effect, r: Request)
    requires RequestsOk(cfg, s) && SlotsOk(cfg, s) && AuditOk(cfg, s) && id in s.requests
    requires RequestOk(cfg, s.shared.clock, r)
    requires MovesSlot(cfg, s.shared, s.requests[id], e, r) && Emits(s.requests[id], e, r)
    ensures RequestsOk(cfg, After(cfg, s, id, e, r)) && SlotsOk(cfg, After(cfg, s, id, e, r)) && AuditOk(cfg, After(cfg, s, id, e, r))
    ensures After(cfg, s, id, e, r).shared.storms.Keys == s.shared.storms.Keys
  {
    RequestsStep(cfg, s, id, e, r);
    SlotStep(cfg, s, id, e, r);
    AuditStep(cfg, s, id, e, r);
  }

  lemma MoveIsAfter(cfg: Config, s: State, id: nat, o: Outcome) returns (e: Effect, r: Request)
    requires id in s.requests && RequestOk(cfg, s.shared.clock, s.requests[id])
    ensures Apply(cfg, s, Move(id, o)) == After(cfg, s, id, e, r)
    ensures Lawful(cfg, s.shared, s.requests[id], e, r)
  {
    LocalIsLawful(cfg, s.shared, s.requests[id], o);
    e, r := Local(cfg, s.shared, s.requests[id], o).0, Local(cfg, s.shared, s.requests[id], o).1;
  }

  lemma MoveKeeps(cfg: Config, s: State, id: nat, o: Outcome)
    requires Inv(cfg, s) && id in s.requests
    ensures Inv(cfg, Apply(cfg, s, Move(id, o)))
  {
    assert RequestOk(cfg, s.shared.clock, s.requests[id]);
    var e, r := MoveIsAfter(cfg, s, id, o);
    LawfulStepKeeps(cfg, s, id, e, r);
    ReplayStep(cfg, s, id, e, r);
  }

  lemma ApplyKeeps(cfg: Config, s: State, step: Step)
    requires Inv(cfg, s)
    ensures Inv(cfg, Apply(cfg, s, step))
  {
    match step
    case Tick(elapsed) => TickKeeps(cfg, s, elapsed);
    case Arrive(id, input) => ArriveKeeps(cfg, s, id, input);
    case Move(id, o) => if id in s.requests { MoveKeeps(cfg, s, id, o); }
  }

  lemma {:induction false} EveryRunIsSafe(cfg: Config, start: Time, steps: seq<Step>)
    ensures Inv(cfg, Run(cfg, Init(cfg, start), steps))
  {
    if steps == [] {
      var s := Init(cfg, start);
      assert forall c :: Holders(s.requests, c) == {};
      assert Decided(s.requests) == {};
    } else {
      EveryRunIsSafe(cfg, start, steps[..|steps| - 1]);
      ApplyKeeps(cfg, Run(cfg, Init(cfg, start), steps[..|steps| - 1]), steps[|steps| - 1]);
    }
  }
}
