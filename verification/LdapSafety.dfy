/** What holds in every run of the LDAP client: who owns each connection, what it is bound as, and what a
    verdict rests on. */
module LdapSafety {
  import opened Directory
  import opened Wrappers
  import opened LdapSession

  // ----- connections of one session

  predicate Connected(pc: Pc) {
    !pc.Start? && !pc.Pool? && !pc.Dial? && !pc.Finished?
  }

  predicate InReferral(pc: Pc) {
    pc.ReferBind? || pc.ReferSearch? || pc.ReferClose?
  }

  /** Program points at which the main connection must be bound as the service account. */
  predicate NeedsService(pc: Pc) {
    pc.Search? || pc.Groups? || pc.ReferDial? || InReferral(pc) || pc == Release(true)
  }

  function Held(s: Session): set<nat> {
    (if s.conn.Some? then {s.conn.value} else {}) + (if s.referral.Some? then {s.referral.value} else {})
  }

  predicate BoundAs(bound: map<nat, Identity>, c: Option<nat>, identity: Identity) {
    c.Some? && c.value in bound && bound[c.value] == identity
  }

  predicate Placed(bound: map<nat, Identity>, s: Session) {
    && (s.conn.Some? <==> Connected(s.pc))
    && (s.referral.Some? <==> InReferral(s.pc))
    && (s.conn.Some? && s.referral.Some? ==> s.conn != s.referral)
    && (NeedsService(s.pc) ==> BoundAs(bound, s.conn, Service))
    && (s.pc.ReferSearch? ==> BoundAs(bound, s.referral, Service))
  }

  /** A step takes, parks or closes only connections of its own session, and parks only service-bound ones. */
  predicate Honest(cfg: Config, st: State, s: Session, e: Effect, s': Session) {
    match e.change
    case Same => Held(s') == Held(s)
    case Open => Held(s') == Held(s) + {st.next}
    case TakeIdle => st.idle != [] && Held(s) == {} && Held(s') == {st.idle[0]}
    case Rebind(c, _) => c in Held(s) && Held(s') == Held(s)
    case Park(c) => c in Held(s) && Held(s') == Held(s) - {c} && |st.idle| < cfg.maxIdle && BoundAs(st.bound, Some(c), Service)
    case Close(c) => c in Held(s) && Held(s') == Held(s) - {c}
  }

  predicate QueriesAsService(ops: seq<Op>) {
    forall i :: 0 <= i < |ops| && ops[i].Queried? ==> ops[i].bound == Service
  }

  predicate Orderly(cfg: Config, st: State, s: Session, e: Effect, s': Session) {
    Honest(cfg, st, s, e, s') && QueriesAsService(e.ops) && Placed(Perform(st, e).bound, s')
  }

  lemma ReferralIsOrderly(cfg: Config, st: State, id: nat, s: Session, reply: Reply)
    requires Placed(st.bound, s) && InReferral(s.pc)
    ensures var (e, s') := ActOnReferral(cfg, st, id, s.referral.value, s, reply); Orderly(cfg, st, s, e, s')
  {
  }

  lemma SearchIsOrderly(cfg: Config, st: State, id: nat, s: Session, reply: Reply)
    requires Placed(st.bound, s) && (s.pc.Search? || s.pc.Groups?)
    ensures s.pc.Search? ==>
      var (e, s') := SearchStep(cfg, st, id, s.conn.value, s, s.pc.stage, reply); Orderly(cfg, st, s, e, s')
    ensures s.pc.Groups? ==>
      var (e, s') := GroupsStep(cfg, st, id, s.conn.value, s, s.pc.stage, reply); Orderly(cfg, st, s, e, s')
  {
  }

  lemma UserBindIsOrderly(cfg: Config, st: State, id: nat, s: Session, reply: Reply)
    requires Placed(st.bound, s) && s.pc.BindUser?
    ensures var (e, s') := BindAsUser(cfg, id, s.conn.value, s, reply); Orderly(cfg, st, s, e, s')
  {
  }

  lemma ActOnIsOrderly(cfg: Config, st: State, id: nat, s: Session, reply: Reply)
    requires Placed(st.bound, s) && Connected(s.pc)
    requires Held(s) <= st.bound.Keys && st.next !in st.bound
    ensures var (e, s') := ActOn(cfg, st, id, s.conn.value, s, reply); Orderly(cfg, st, s, e, s')
  {
    if InReferral(s.pc) {
      ReferralIsOrderly(cfg, st, id, s, reply);
    } else if s.pc.Search? || s.pc.Groups? {
      SearchIsOrderly(cfg, st, id, s, reply);
    } else if s.pc.BindUser? {
      UserBindIsOrderly(cfg, st, id, s, reply);
    } else if s.pc.ReferDial? {
      ReferralDialIsOrderly(cfg, st, id, s, reply);
    } else if s.pc.Release? {
      ReleaseIsOrderly(cfg, st, id, s, reply);
    } else if s.pc.Drop? || s.pc.Dispatch? {
      DispatchIsOrderly(cfg, st, id, s, reply);
    } else {
      ServiceBindIsOrderly(cfg, st, id, s, reply);
    }
  }

  /** A service bind keeps order when both its ends fit the connection's new binding. */
  lemma BindIsOrderly(cfg: Config, st: State, s: Session, reply: Reply, bound: Session, failed: Error -> Session)
    requires Placed(st.bound, s) && s.conn.Some? && s.referral.None?
    requires Connected(bound.pc) && bound.conn == s.conn && bound.referral.None? && !InReferral(bound.pc)
    requires forall e: Error :: Connected(failed(e).pc) && failed(e).conn == s.conn && failed(e).referral.None?
                             && !InReferral(failed(e).pc) && !NeedsService(failed(e).pc)
    ensures var (e, s') := BindAsService(cfg, s.conn.value, reply, bound, failed); Orderly(cfg, st, s, e, s')
  {
  }

  lemma ReferralDialIsOrderly(cfg: Config, st: State, id: nat, s: Session, reply: Reply)
    requires Placed(st.bound, s) && s.pc.ReferDial?
    requires Held(s) <= st.bound.Keys && st.next !in st.bound
    ensures var (e, s') := ActOn(cfg, st, id, s.conn.value, s, reply); Orderly(cfg, st, s, e, s')
  {
  }

  lemma ReleaseIsOrderly(cfg: Config, st: State, id: nat, s: Session, reply: Reply)
    requires Placed(st.bound, s) && s.pc.Release?
    requires Held(s) <= st.bound.Keys && st.next !in st.bound
    ensures var (e, s') := ActOn(cfg, st, id, s.conn.value, s, reply); Orderly(cfg, st, s, e, s')
  {
  }

  lemma DispatchIsOrderly(cfg: Config, st: State, id: nat, s: Session, reply: Reply)
    requires Placed(st.bound, s) && (s.pc.Drop? || s.pc.Dispatch?)
    requires Held(s) <= st.bound.Keys && st.next !in st.bound
    ensures var (e, s') := ActOn(cfg, st, id, s.conn.value, s, reply); Orderly(cfg, st, s, e, s')
  {
  }

  lemma ServiceBindIsOrderly(cfg: Config, st: State, id: nat, s: Session, reply: Reply)
    requires Placed(st.bound, s) && (s.pc.Validate? || s.pc.BindService? || s.pc.Restore?)
    ensures var (e, s') := ActOn(cfg, st, id, s.conn.value, s, reply); Orderly(cfg, st, s, e, s')
  {
    if s.pc.Validate? && cfg.serviceSearch {
      BindIsOrderly(cfg, st, s, reply, s.(pc := Dispatch), _ => s.(pc := Drop));
    } else if s.pc.BindService? {
      BindIsOrderly(cfg, st, s, reply, ServiceBound(s, s.pc.stage), e => Fail(s, e));
    } else if s.pc.Restore? {
      BindIsOrderly(cfg, st, s, reply, Succeed(cfg, s, true), _ => Succeed(cfg, s, false));
    }
  }

  lemma ActIsOrderly(cfg: Config, st: State, id: nat, s: Session, reply: Reply)
    requires Placed(st.bound, s)
    requires Held(s) <= st.bound.Keys && st.next !in st.bound
    ensures var (e, s') := Act(cfg, st, id, s, reply); Orderly(cfg, st, s, e, s')
  {
    if Connected(s.pc) {
      ActOnIsOrderly(cfg, st, id, s, reply);
    }
  }

  // ----- all connections

  /** Every connection ever opened is in exactly one place: held by one session, idle in the pool once,
      or closed; the pool holds at most `maxIdle`, all bound as the service account. */
  ghost predicate Conserved(cfg: Config, st: State) {
    && (forall c :: c in st.bound <==> 0 <= c < st.next)
    && (forall c: nat :: c < st.next ==> c in st.closed || c in st.idle || exists id: nat :: Holds(st, id, c))
    && (forall id: nat, c: nat :: Holds(st, id, c) ==> c < st.next && c !in st.closed && c !in st.idle)
    && (forall a: nat, b: nat, c: nat :: Holds(st, a, c) && Holds(st, b, c) ==> a == b)
    && (forall i :: 0 <= i < |st.idle| ==> st.idle[i] < st.next && st.idle[i] !in st.closed)
    && (forall i, j :: 0 <= i < j < |st.idle| ==> st.idle[i] != st.idle[j])
    && (forall c :: c in st.closed ==> c < st.next)
    && |st.idle| <= cfg.maxIdle
    && (forall i :: 0 <= i < |st.idle| ==> BoundAs(st.bound, Some(st.idle[i]), Service))
  }

  predicate Holds(st: State, id: nat, c: nat) {
    id in st.sessions && c in Held(st.sessions[id])
  }

  ghost predicate AllPlaced(st: State) {
    forall id :: id in st.sessions ==> Placed(st.bound, st.sessions[id])
  }

  function After(st: State, id: nat, e: Effect, s: Session): State {
    Perform(st, e).(sessions := st.sessions[id := s])
  }

  /** Only the holdings of session `id` differ between the two states, from `was` to `now`. */
  ghost predicate Moved(st: State, st': State, id: nat, was: set<nat>, now: set<nat>) {
    && (forall c: nat :: Holds(st, id, c) <==> c in was)
    && (forall c: nat :: Holds(st', id, c) <==> c in now)
    && (forall other: nat, c: nat :: other != id ==> (Holds(st', other, c) <==> Holds(st, other, c)))
  }

  lemma OpenConserves(cfg: Config, st: State, st': State, id: nat, was: set<nat>)
    requires Conserved(cfg, st) && Moved(st, st', id, was, was + {st.next})
    requires st'.next == st.next + 1 && st'.bound == st.bound[st.next := Anonymous] && st'.idle == st.idle && st'.closed == st.closed
    ensures Conserved(cfg, st')
  {
    assert Holds(st', id, st.next);
    forall c: nat | c < st'.next ensures c in st'.closed || c in st'.idle || exists k: nat :: Holds(st', k, c) {
      if c < st.next && c !in st.closed && c !in st.idle {
        var k: nat :| Holds(st, k, c);
        assert Holds(st', k, c);
      }
    }
  }

  lemma RebindConserves(cfg: Config, st: State, st': State, id: nat, was: set<nat>)
    requires Conserved(cfg, st) && Moved(st, st', id, was, was)
    requires st'.next == st.next && st'.idle == st.idle && st'.closed == st.closed
    requires st'.bound.Keys == st.bound.Keys && forall c :: c in st.bound && c !in was ==> st'.bound[c] == st.bound[c]
    ensures Conserved(cfg, st')
  {
    forall c: nat | c < st'.next ensures c in st'.closed || c in st'.idle || exists k: nat :: Holds(st', k, c) {
      if c !in st.closed && c !in st.idle {
        var k: nat :| Holds(st, k, c);
        assert Holds(st', k, c);
      }
    }
    forall i | 0 <= i < |st.idle| ensures BoundAs(st'.bound, Some(st.idle[i]), Service) {
      assert st.idle[i] in st.idle && st.idle[i] !in was;
    }
  }

  lemma TakeConserves(cfg: Config, st: State, st': State, id: nat)
    requires Conserved(cfg, st) && st.idle != [] && Moved(st, st', id, {}, {st.idle[0]})
    requires st'.next == st.next && st'.bound == st.bound && st'.idle == st.idle[1..] && st'.closed == st.closed
    ensures Conserved(cfg, st')
  {
    assert Holds(st', id, st.idle[0]);
    forall c: nat | c < st'.next ensures c in st'.closed || c in st'.idle || exists k: nat :: Holds(st', k, c) {
      if c in st.idle {
        var i :| 0 <= i < |st.idle| && st.idle[i] == c;
        assert i > 0 ==> c == st'.idle[i - 1];
      } else if c !in st.closed {
        var k: nat :| Holds(st, k, c);
        assert Holds(st', k, c);
      }
    }
  }

  lemma ParkConserves(cfg: Config, st: State, st': State, id: nat, was: set<nat>, p: nat)
    requires Conserved(cfg, st) && p in was && Moved(st, st', id, was, was - {p})
    requires |st.idle| < cfg.maxIdle && BoundAs(st.bound, Some(p), Service)
    requires st'.next == st.next && st'.bound == st.bound && st'.idle == st.idle + [p] && st'.closed == st.closed
    ensures Conserved(cfg, st')
  {
    assert Holds(st, id, p) && p in st'.idle;
    forall c: nat | c < st'.next ensures c in st'.closed || c in st'.idle || exists k: nat :: Holds(st', k, c) {
      if c != p && c !in st.closed && c !in st.idle {
        var k: nat :| Holds(st, k, c);
        assert Holds(st', k, c);
      }
    }
  }

  lemma CloseConserves(cfg: Config, st: State, st': State, id: nat, was: set<nat>, p: nat)
    requires Conserved(cfg, st) && p in was && Moved(st, st', id, was, was - {p})
    requires st'.next == st.next && st'.bound == st.bound && st'.idle == st.idle && st'.closed == st.closed + {p}
    ensures Conserved(cfg, st')
  {
    assert Holds(st, id, p);
    forall i | 0 <= i < |st.idle| ensures st.idle[i] != p {
      assert st.idle[i] in st.idle;
    }
    forall c: nat | c < st'.next ensures c in st'.closed || c in st'.idle || exists k: nat :: Holds(st', k, c) {
      if c != p && c !in st.closed && c !in st.idle {
        var k: nat :| Holds(st, k, c);
        assert Holds(st', k, c);
      }
    }
  }

  lemma ConservedAfter(cfg: Config, st: State, id: nat, e: Effect, s: Session)
    requires Conserved(cfg, st) && id in st.sessions
    requires Honest(cfg, st, st.sessions[id], e, s)
    ensures Conserved(cfg, After(st, id, e, s))
  {
    var st' := After(st, id, e, s);
    var was := Held(st.sessions[id]);
    assert Moved(st, st', id, was, Held(s));
    match e.change
    case Same => RebindConserves(cfg, st, st', id, was);
    case Open => OpenConserves(cfg, st, st', id, was);
    case TakeIdle => TakeConserves(cfg, st, st', id);
    case Rebind(c, identity) =>
      assert Holds(st, id, c);
      RebindConserves(cfg, st, st', id, was);
    case Park(c) => ParkConserves(cfg, st, st', id, was, c);
    case Close(c) => CloseConserves(cfg, st, st', id, was, c);
  }

  /** What a step does to a connection leaves the other sessions' view of theirs untouched. */
  lemma OthersStayPlaced(cfg: Config, st: State, id: nat, e: Effect, s: Session, other: nat)
    requires Conserved(cfg, st) && id in st.sessions && other in st.sessions && other != id
    requires Honest(cfg, st, st.sessions[id], e, s) && Placed(st.bound, st.sessions[other])
    ensures Placed(Perform(st, e).bound, st.sessions[other])
  {
    assert e.change.Rebind? ==> Holds(st, id, e.change.conn);
    var o := st.sessions[other];
    assert o.conn.Some? ==> Holds(st, other, o.conn.value);
    assert o.referral.Some? ==> Holds(st, other, o.referral.value);
  }

  // ----- what a verdict rests on

  /** The directory accepted the submitted password under the session's bind name. */
  predicate PasswordAccepted(id: nat, s: Session, trace: seq<Op>) {
    s.job.password != "" && UserBind(id, s.target, s.job.password, 0, "") in trace
  }

  predicate UniqueMatch(id: nat, s: Session, trace: seq<Op>) {
    s.found.Some? && Matched(id, [s.found.value]) in trace
  }

  /** The name the mode binds with: the unique entry's DN, the template DN or the processed username. */
  predicate RightName(cfg: Config, id: nat, s: Session, trace: seq<Op>) {
    match cfg.mode
    case SearchThenBind => UniqueMatch(id, s, trace) && s.target == s.found.value.dn
    case DnTemplate => s.target == cfg.template(s.username)
    case DirectBind => s.target == s.username
    case Unsupported => false
  }

  predicate SuccessIsEarned(cfg: Config, id: nat, s: Session, trace: seq<Op>) {
    && cfg.preprocess(s.job.username) == Some(s.username)
    && PasswordAccepted(id, s, trace) && RightName(cfg, id, s, trace)
    && (cfg.mode.DirectBind? ==> UniqueMatch(id, s, trace))
  }

  /** The only grounds for telling a user no. */
  ghost predicate FailureIsDeserved(cfg: Config, id: nat, s: Session, trace: seq<Op>) {
    || s.job.password == ""
    || cfg.preprocess(s.job.username).None?
    || (exists entries :: Matched(id, entries) in trace && |entries| != 1)
    || (exists data :: UserBind(id, s.target, s.job.password, 49, data) in trace)
  }

  ghost predicate VerdictOk(cfg: Config, id: nat, s: Session, trace: seq<Op>) {
    s.job.Verify? && s.answer.Some? ==>
      && s.answer.value.Verdict?
      && (s.answer.value.outcome.Returned? ==>
            var r := s.answer.value.outcome.result;
            if r.Credential() == SUCCESS then SuccessIsEarned(cfg, id, s, trace)
            else (r.Credential() == FAILURE || r.Credential() == POLICY_REQUIRED) && FailureIsDeserved(cfg, id, s, trace))
  }

  function StageOf(pc: Pc): Option<Stage> {
    match pc
    case BindService(stage) => Some(stage)
    case Search(stage) => Some(stage)
    case Groups(stage) => Some(stage)
    case ReferDial(stage, _) => Some(stage)
    case ReferBind(stage, _) => Some(stage)
    case ReferSearch(stage, _) => Some(stage)
    case ReferClose(stage, _, _) => Some(stage)
    case _ => None
  }

  /** The user search is over and the groups are being looked up. */
  predicate InGroups(pc: Pc) {
    match pc
    case Groups(_) => true
    case ReferDial(_, groups) => groups
    case ReferBind(_, groups) => groups
    case ReferSearch(_, groups) => groups
    case ReferClose(_, groups, _) => groups
    case _ => false
  }

  predicate StageFits(cfg: Config, stage: Stage) {
    match cfg.mode
    case SearchThenBind => stage.UserSearch?
    case DirectBind => stage.UserSearch?
    case DnTemplate => stage.ByDn? || stage.Fallback?
    case Unsupported => false
  }

  /** The evidence a check has gathered by each program point. */
  predicate Progress(cfg: Config, id: nat, s: Session, trace: seq<Op>) {
    s.job.Verify? ==>
      && (s.answer.Some? <==> s.pc.Release? || s.pc.Finished?)
      && (s.pc != Start && s.answer == None ==> s.job.password != "" && cfg.preprocess(s.job.username) == Some(s.username))
      && (StageOf(s.pc).Some? ==> StageFits(cfg, StageOf(s.pc).value))
      && (StageOf(s.pc).Some? && !cfg.mode.SearchThenBind? ==> RightName(cfg, id, s, trace) && PasswordAccepted(id, s, trace))
      && (InGroups(s.pc) && StageOf(s.pc) == Some(UserSearch) ==> UniqueMatch(id, s, trace))
      && (s.pc.BindUser? ==> RightName(cfg, id, s, trace))
      && (s.pc.Restore? ==> SuccessIsEarned(cfg, id, s, trace))
  }

  ghost predicate Sound(cfg: Config, id: nat, s: Session, trace: seq<Op>) {
    Progress(cfg, id, s, trace) && VerdictOk(cfg, id, s, trace)
  }

  /** Evidence does not go away. */
  lemma SoundGrows(cfg: Config, id: nat, s: Session, trace: seq<Op>, ops: seq<Op>)
    requires Sound(cfg, id, s, trace)
    ensures Sound(cfg, id, s, trace + ops)
  {
    assert forall op :: op in trace ==> op in trace + ops;
  }

  lemma UserBindIsSound(cfg: Config, st: State, id: nat, c: nat, s: Session, reply: Reply)
    requires Sound(cfg, id, s, st.trace) && s.pc.BindUser?
    ensures var (e, s') := BindAsUser(cfg, id, c, s, reply); Sound(cfg, id, s', st.trace + e.ops)
  {
  }

  lemma SearchIsSound(cfg: Config, st: State, id: nat, c: nat, s: Session, reply: Reply)
    requires Sound(cfg, id, s, st.trace) && s.pc.Search?
    ensures var (e, s') := SearchStep(cfg, st, id, c, s, s.pc.stage, reply); Sound(cfg, id, s', st.trace + e.ops)
  {
    var (e, s') := SearchStep(cfg, st, id, c, s, s.pc.stage, reply);
    SoundGrows(cfg, id, s, st.trace, e.ops);
    if reply.Entries? {
      assert s.pc.stage.UserSearch? ==> Matched(id, reply.entries) == e.ops[1] && e.ops[1] in st.trace + e.ops;
      SearchDoneIsSound(cfg, id, s, reply.entries, st.trace + e.ops);
    }
  }

  lemma SearchDoneIsSound(cfg: Config, id: nat, s: Session, entries: seq<Found>, trace: seq<Op>)
    requires Sound(cfg, id, s, trace) && s.pc.Search? && (s.pc.stage.UserSearch? ==> Matched(id, entries) in trace)
    ensures Sound(cfg, id, SearchDone(cfg, s, s.pc.stage, entries), trace)
  {
    assert |entries| == 1 ==> entries == [entries[0]];
  }

  lemma GroupsDoneIsSound(cfg: Config, id: nat, s: Session, stage: Stage, trace: seq<Op>)
    requires Sound(cfg, id, s, trace) && InGroups(s.pc) && StageOf(s.pc) == Some(stage)
    ensures Sound(cfg, id, GroupsDone(cfg, s, stage), trace)
  {
  }

  lemma GroupsIsSound(cfg: Config, st: State, id: nat, c: nat, s: Session, reply: Reply)
    requires Sound(cfg, id, s, st.trace) && s.pc.Groups?
    ensures var (e, s') := GroupsStep(cfg, st, id, c, s, s.pc.stage, reply); Sound(cfg, id, s', st.trace + e.ops)
  {
    var (e, s') := GroupsStep(cfg, st, id, c, s, s.pc.stage, reply);
    SoundGrows(cfg, id, s, st.trace, e.ops);
    GroupsDoneIsSound(cfg, id, s, s.pc.stage, st.trace + e.ops);
  }

  lemma ReferralOverIsSound(cfg: Config, id: nat, s: Session, stage: Stage, groups: bool, fault: Option<Error>, trace: seq<Op>)
    requires Sound(cfg, id, s, trace) && StageOf(s.pc) == Some(stage) && InGroups(s.pc) == groups && !s.pc.BindService?
    ensures Sound(cfg, id, ReferralOver(cfg, s, stage, groups, fault), trace)
    ensures Sound(cfg, id, ReferralOver(cfg, s, stage, groups, fault).(referral := None), trace)
  {
    if groups {
      GroupsDoneIsSound(cfg, id, s, stage, trace);
    }
  }

  lemma ReferralIsSound(cfg: Config, st: State, id: nat, c: nat, s: Session, reply: Reply)
    requires Sound(cfg, id, s, st.trace) && InReferral(s.pc)
    ensures var (e, s') := ActOnReferral(cfg, st, id, c, s, reply); Sound(cfg, id, s', st.trace + e.ops)
  {
    var (e, s') := ActOnReferral(cfg, st, id, c, s, reply);
    SoundGrows(cfg, id, s, st.trace, e.ops);
    if s.pc.ReferClose? {
      ReferralOverIsSound(cfg, id, s, s.pc.stage, s.pc.groups, s.pc.fault, st.trace + e.ops);
    }
  }

  lemma BeginIsSound(cfg: Config, id: nat, s: Session, trace: seq<Op>)
    requires Sound(cfg, id, s, trace) && s.pc.Start?
    ensures Sound(cfg, id, Begin(cfg, s), trace)
  {
  }

  lemma ChooseIsSound(cfg: Config, id: nat, s: Session, trace: seq<Op>)
    requires Sound(cfg, id, s, trace) && s.pc.Dispatch?
    ensures Sound(cfg, id, Choose(cfg, s), trace)
  {
  }

  lemma RestoreIsSound(cfg: Config, id: nat, s: Session, trace: seq<Op>, reusable: bool)
    requires Sound(cfg, id, s, trace) && s.pc.Restore?
    ensures Sound(cfg, id, Succeed(cfg, s, reusable), trace)
  {
  }

  lemma DialIsSound(cfg: Config, st: State, id: nat, c: nat, s: Session, reply: Reply)
    requires Sound(cfg, id, s, st.trace) && s.conn.Some? && s.pc.ReferDial?
    ensures var (e, s') := ActOn(cfg, st, id, c, s, reply); Sound(cfg, id, s', st.trace + e.ops)
  {
    assert st.trace + [] == st.trace;
    forall fault ensures Sound(cfg, id, ReferralOver(cfg, s, s.pc.stage, s.pc.groups, fault), st.trace) {
      ReferralOverIsSound(cfg, id, s, s.pc.stage, s.pc.groups, fault, st.trace);
    }
  }

  lemma HousekeepingIsSound(cfg: Config, st: State, id: nat, c: nat, s: Session, reply: Reply)
    requires Sound(cfg, id, s, st.trace) && s.conn.Some?
    requires s.pc.Validate? || s.pc.Drop? || s.pc.BindService? || s.pc.Restore? || s.pc.Release?
    ensures var (e, s') := ActOn(cfg, st, id, c, s, reply); Sound(cfg, id, s', st.trace + e.ops)
  {
    assert st.trace + [] == st.trace;
    if s.pc.Restore? {
      RestoreIsSound(cfg, id, s, st.trace, true);
      RestoreIsSound(cfg, id, s, st.trace, false);
    }
  }

  lemma ActOnIsSound(cfg: Config, st: State, id: nat, c: nat, s: Session, reply: Reply)
    requires Sound(cfg, id, s, st.trace) && s.conn.Some? && Connected(s.pc) && (InReferral(s.pc) ==> s.referral.Some?)
    ensures var (e, s') := ActOn(cfg, st, id, c, s, reply); Sound(cfg, id, s', st.trace + e.ops)
  {
    assert st.trace + [] == st.trace;
    if s.pc.Dispatch? {
      ChooseIsSound(cfg, id, s, st.trace);
    } else if s.pc.Search? {
      SearchIsSound(cfg, st, id, c, s, reply);
    } else if s.pc.Groups? {
      GroupsIsSound(cfg, st, id, c, s, reply);
    } else if s.pc.BindUser? {
      UserBindIsSound(cfg, st, id, c, s, reply);
    } else if s.pc.ReferDial? {
      DialIsSound(cfg, st, id, c, s, reply);
    } else if InReferral(s.pc) {
      ReferralIsSound(cfg, st, id, s.referral.value, s, reply);
    } else {
      HousekeepingIsSound(cfg, st, id, c, s, reply);
    }
  }

  lemma ActIsSound(cfg: Config, st: State, id: nat, s: Session, reply: Reply)
    requires Sound(cfg, id, s, st.trace) && Placed(st.bound, s)
    ensures var (e, s') := Act(cfg, st, id, s, reply); Sound(cfg, id, s', st.trace + e.ops)
  {
    assert st.trace + [] == st.trace;
    if s.pc.Start? {
      BeginIsSound(cfg, id, s, st.trace);
    } else if Connected(s.pc) {
      ActOnIsSound(cfg, st, id, s.conn.value, s, reply);
    }
  }

  // ----- every run

  ghost predicate Inv(cfg: Config, st: State) {
    && Conserved(cfg, st) && AllPlaced(st) && QueriesAsService(st.trace)
    && forall id :: id in st.sessions ==> Sound(cfg, id, st.sessions[id], st.trace)
  }

  lemma SessionsAfter(cfg: Config, st: State, id: nat, e: Effect, s: Session)
    requires Inv(cfg, st) && id in st.sessions
    requires Orderly(cfg, st, st.sessions[id], e, s) && Sound(cfg, id, s, st.trace + e.ops)
    ensures Inv(cfg, After(st, id, e, s))
  {
    var st' := After(st, id, e, s);
    ConservedAfter(cfg, st, id, e, s);
    assert st'.trace == st.trace + e.ops;
    forall other | other in st'.sessions
      ensures Placed(st'.bound, st'.sessions[other]) && Sound(cfg, other, st'.sessions[other], st'.trace)
    {
      if other != id {
        OthersStayPlaced(cfg, st, id, e, s, other);
        SoundGrows(cfg, other, st.sessions[other], st.trace, e.ops);
      }
    }
  }

  lemma ProceedKeeps(cfg: Config, st: State, id: nat, reply: Reply)
    requires Inv(cfg, st) && id in st.sessions
    ensures Inv(cfg, Apply(cfg, st, Proceed(id, reply)))
  {
    var (e, s) := Act(cfg, st, id, st.sessions[id], reply);
    forall c | c in Held(st.sessions[id]) ensures c in st.bound {
      assert Holds(st, id, c);
    }
    ActIsOrderly(cfg, st, id, st.sessions[id], reply);
    ActIsSound(cfg, st, id, st.sessions[id], reply);
    SessionsAfter(cfg, st, id, e, s);
    assert Apply(cfg, st, Proceed(id, reply)) == After(st, id, e, s);
  }

  lemma ArriveKeeps(cfg: Config, st: State, id: nat, job: Job)
    requires Inv(cfg, st) && id !in st.sessions
    ensures Inv(cfg, st.(sessions := st.sessions[id := Fresh(job)]))
  {
    var st' := st.(sessions := st.sessions[id := Fresh(job)]);
    assert Moved(st, st', id, {}, {});
    RebindConserves(cfg, st, st', id, {});
  }

  lemma {:induction false} EveryRunIsSafe(cfg: Config, steps: seq<Step>)
    ensures Inv(cfg, Run(cfg, steps))
  {
    if steps != [] {
      var st, step := Run(cfg, steps[..|steps| - 1]), steps[|steps| - 1];
      EveryRunIsSafe(cfg, steps[..|steps| - 1]);
      match step
      case Arrive(id, job) => if id !in st.sessions { ArriveKeeps(cfg, st, id, job); }
      case Proceed(id, reply) => if id in st.sessions { ProceedKeeps(cfg, st, id, reply); }
    }
  }

  /** Every search of every run goes out on a connection bound as the service account. */
  lemma SearchesRunAsService(cfg: Config, steps: seq<Step>)
    ensures forall op :: op in Run(cfg, steps).trace && op.Queried? ==> op.bound == Service
  {
    EveryRunIsSafe(cfg, steps);
  }

  /** No connection is lost, shared or used after close: each is held by one session, idle or closed. */
  lemma ConnectionsAreConserved(cfg: Config, steps: seq<Step>)
    ensures Conserved(cfg, Run(cfg, steps))
    ensures forall id :: id in Run(cfg, steps).sessions && Run(cfg, steps).sessions[id].pc.Finished? ==>
      Held(Run(cfg, steps).sessions[id]) == {}
  {
    EveryRunIsSafe(cfg, steps);
  }

  /** What a finished password check says is what the directory said. */
  lemma VerdictsAreSound(cfg: Config, steps: seq<Step>, id: nat)
    requires var st := Run(cfg, steps); id in st.sessions && st.sessions[id].job.Verify? && st.sessions[id].pc.Finished?
    ensures var st := Run(cfg, steps); st.sessions[id].answer.Some? && VerdictOk(cfg, id, st.sessions[id], st.trace)
  {
    EveryRunIsSafe(cfg, steps);
  }

  // ----- the pool is a queue

  /** The connection a step parks, if any. */
  function ParkedBy(cfg: Config, st: State, step: Step): seq<nat> {
    if step.Proceed? && step.id in st.sessions then
      match Act(cfg, st, step.id, st.sessions[step.id], step.reply).0.change
      case Park(c) => [c]
      case _ => []
    else []
  }

  /** The connection a session gets from the pool by a step, if any. */
  function TakenBy(cfg: Config, st: State, step: Step): seq<nat> {
    if step.Proceed? && step.id in st.sessions && Act(cfg, st, step.id, st.sessions[step.id], step.reply).0.change.TakeIdle? then
      match Act(cfg, st, step.id, st.sessions[step.id], step.reply).1.conn
      case Some(c) => [c]
      case None => []
    else []
  }

  function Parked(cfg: Config, steps: seq<Step>): seq<nat> {
    if steps == [] then []
    else Parked(cfg, steps[..|steps| - 1]) + ParkedBy(cfg, Run(cfg, steps[..|steps| - 1]), steps[|steps| - 1])
  }

  function Taken(cfg: Config, steps: seq<Step>): seq<nat> {
    if steps == [] then []
    else Taken(cfg, steps[..|steps| - 1]) + TakenBy(cfg, Run(cfg, steps[..|steps| - 1]), steps[|steps| - 1])
  }

  lemma OnlyPoolTakesIdle(cfg: Config, st: State, id: nat, s: Session, reply: Reply)
    requires Placed(st.bound, s) && Held(s) <= st.bound.Keys && st.next !in st.bound
    requires Act(cfg, st, id, s, reply).0.change.TakeIdle?
    ensures st.idle != [] && Act(cfg, st, id, s, reply).1.conn == Some(st.idle[0])
  {
    ActIsOrderly(cfg, st, id, s, reply);
    var s' := Act(cfg, st, id, s, reply).1;
    assert st.idle[0] in Held(s') && Held(s') == {st.idle[0]};
  }

  lemma StepQueues(cfg: Config, st: State, step: Step)
    requires Inv(cfg, st)
    ensures st.idle + ParkedBy(cfg, st, step) == TakenBy(cfg, st, step) + Apply(cfg, st, step).idle
  {
    if step.Proceed? && step.id in st.sessions {
      var s := st.sessions[step.id];
      forall c | c in Held(s) ensures c in st.bound {
        assert Holds(st, step.id, c);
      }
      assert Placed(st.bound, s);
      if Act(cfg, st, step.id, s, step.reply).0.change.TakeIdle? {
        OnlyPoolTakesIdle(cfg, st, step.id, s, step.reply);
        assert [st.idle[0]] + st.idle[1..] == st.idle;
      }
    }
  }

  /** In every run the idle list is what was parked and not yet taken, in that order. */
  lemma {:induction false} PoolIsQueue(cfg: Config, steps: seq<Step>)
    ensures Parked(cfg, steps) == Taken(cfg, steps) + Run(cfg, steps).idle && |Run(cfg, steps).idle| <= cfg.maxIdle
  {
    EveryRunIsSafe(cfg, steps);
    if steps != [] {
      var n := |steps| - 1;
      PoolIsQueue(cfg, steps[..n]);
      EveryRunIsSafe(cfg, steps[..n]);
      StepQueues(cfg, Run(cfg, steps[..n]), steps[n]);
      QueueGrows(Parked(cfg, steps[..n]), Taken(cfg, steps[..n]), Run(cfg, steps[..n]).idle,
                 ParkedBy(cfg, Run(cfg, steps[..n]), steps[n]), TakenBy(cfg, Run(cfg, steps[..n]), steps[n]), Run(cfg, steps).idle);
    }
  }

  lemma QueueGrows(parked: seq<nat>, taken: seq<nat>, idle: seq<nat>, more: seq<nat>, out: seq<nat>, idle': seq<nat>)
    requires parked == taken + idle && idle + more == out + idle'
    ensures parked + more == (taken + out) + idle'
  {
    assert parked + more == taken + (idle + more);
    assert taken + (out + idle') == (taken + out) + idle';
  }

  lemma ReleaseGivesBack(cfg: Config, st: State, id: nat, reply: Reply)
    requires id in st.sessions && st.sessions[id].pc.Release? && st.sessions[id].conn.Some?
    ensures var c := st.sessions[id].conn.value;
      if st.sessions[id].pc.reusable && |st.idle| < cfg.maxIdle then ParkedBy(cfg, st, Proceed(id, reply)) == [c]
      else ParkedBy(cfg, st, Proceed(id, reply)) == [] && c in Apply(cfg, st, Proceed(id, reply)).closed
  {
  }

  /** A connection goes back exactly when it may be reused and there is room, and is closed otherwise. */
  lemma ReusableIsParkedIfRoom(cfg: Config, steps: seq<Step>, id: nat, reply: Reply)
    requires var st := Run(cfg, steps); id in st.sessions && st.sessions[id].pc.Release?
    ensures var st := Run(cfg, steps);
      var s := st.sessions[id];
      && s.conn.Some?
      && (if s.pc.reusable && |Parked(cfg, steps)| - |Taken(cfg, steps)| < cfg.maxIdle
          then ParkedBy(cfg, st, Proceed(id, reply)) == [s.conn.value]
          else ParkedBy(cfg, st, Proceed(id, reply)) == [] && s.conn.value in Apply(cfg, st, Proceed(id, reply)).closed)
  {
    PoolIsQueue(cfg, steps);
    EveryRunIsSafe(cfg, steps);
    var st := Run(cfg, steps);
    assert Placed(st.bound, st.sessions[id]);
    ReleaseGivesBack(cfg, st, id, reply);
  }
}
