/** The LDAP client as a connection state machine.

    Any number of password checks and connection tests run at once over one pool of idle connections.
    Every exchange with the directory is a step whose reply the directory chooses.  A connection carries
    the identity the directory has it bound as: a bind request drops it to anonymous until it succeeds
    (section 4 of RFC 4513). */
module LdapSession {
  import opened Directory
  import opened Wrappers

  datatype Identity = Anonymous | Service | User(name: string)

  datatype Mode = SearchThenBind | DnTemplate | DirectBind | Unsupported

  datatype Config = Config(
    mode: Mode,
    maxIdle: nat,             // 0: no pool
    serviceSearch: bool,      // bind DN, bind password, base DN and user filter are all set
    followReferrals: bool,    // allowlist mode with service bind reuse
    adStatus: bool,           // map Active Directory status codes
    preprocess: string -> Option<string>,
    template: string -> string)

  datatype Job =
    | Verify(username: string, password: string, wantsAttributes: bool)
    | Test(username: string, password: string, testPassword: bool, insecure: bool)

  const INVALID_CREDENTIALS_CODE: nat := 49

  /** A failed exchange, before it is normalised. */
  datatype Fault = Ldap(code: nat, data: string) | Tls | Unavailable | Referred | Unclassified

  datatype Found = Found(dn: string, subject: string)

  /** What the directory, the network or the deadline makes of a step. */
  datatype Reply =
    | Accepted                       // a dial or a bind succeeds
    | Refused(fault: Fault)          // a dial, bind or search fails
    | Expired                        // the deadline has passed, nothing is sent
    | More                           // a further search request of the same lookup
    | Refer                          // the search result carries a referral
    | Entries(entries: seq<Found>)   // the lookup is complete

  /** What an LDAP search is for. */
  datatype Stage = Ping | UserSearch | ByDn | Fallback

  datatype Pc =
    | Start
    | Pool
    | Validate
    | Drop
    | Dial
    | Dispatch
    | BindService(stage: Stage)
    | Search(stage: Stage)
    | Groups(stage: Stage)
    | ReferDial(stage: Stage, groups: bool)
    | ReferBind(stage: Stage, groups: bool)
    | ReferSearch(stage: Stage, groups: bool)
    | ReferClose(stage: Stage, groups: bool, fault: Option<Error>)
    | BindUser
    | Restore
    | Release(reusable: bool)
    | Finished

  datatype Answer = Verdict(outcome: Outcome) | Tested(passwordOk: bool, error: Option<Error>)

  datatype Session = Session(
    job: Job,
    pc: Pc,
    username: string,         // processed
    conn: Option<nat>,
    referral: Option<nat>,
    target: string,           // the name the user bind uses
    found: Option<Found>,     // the entry of the user search
    answer: Option<Answer>)

  /** The exchanges that count as evidence, per session. */
  datatype Op =
    | UserBind(id: nat, name: string, password: string, code: nat, data: string)   // code 0: accepted
    | Matched(id: nat, entries: seq<Found>)          // what the user search returned
    | Queried(id: nat, conn: nat, bound: Identity)   // a search request and the binding it ran under

  datatype State = State(
    next: nat,                   // connections opened so far: 0 .. next - 1
    bound: map<nat, Identity>,
    idle: seq<nat>,
    closed: set<nat>,
    sessions: map<nat, Session>,
    trace: seq<Op>)

  // ----- the pool

  /** The idle channel: a bounded first-in first-out queue that never blocks.  `parked` and `taken` are all
      connections that ever went in and came out. */
  class IdlePool {
    const capacity: nat
    var idle: seq<nat>
    ghost var parked: seq<nat>
    ghost var taken: seq<nat>

    ghost predicate Valid()
      reads this
    {
      parked == taken + idle && |idle| <= capacity
    }

    constructor (capacity: nat)
      ensures Valid() && this.capacity == capacity && parked == []
    {
      this.capacity := capacity;
      idle, parked, taken := [], [], [];
    }

    /** Gives out the connection that has waited longest, each once, and none only when all are out. */
    method Get() returns (conn: Option<nat>)
      requires Valid()
      modifies this
      ensures Valid() && parked == old(parked)
      ensures taken == parked[..|taken|] && (conn.None? <==> old(taken) == parked)
      ensures conn.None? ==> taken == old(taken)
      ensures conn.Some? ==> |taken| == |old(taken)| + 1 && conn.value == parked[|old(taken)|]
    {
      if idle == [] {
        return None;
      }
      conn := Some(idle[0]);
      taken := taken + [idle[0]];
      idle := idle[1..];
    }

    /** Takes a connection in unless `capacity` of them wait. */
    method Put(conn: nat) returns (ok: bool)
      requires Valid()
      modifies this
      ensures Valid() && taken == old(taken)
      ensures ok <==> |old(parked)| - |taken| < capacity
      ensures parked == old(parked) + (if ok then [conn] else [])
    {
      ok := |idle| < capacity;
      if ok {
        idle := idle + [conn];
        parked := parked + [conn];
      }
    }
  }

  // ----- errors and verdicts

  function AdStatus(data: string): Option<Error> {
    if data == "532" then Some(PasswordExpired)
    else if data == "533" then Some(AccountDisabled)
    else if data == "773" then Some(MustChangePassword)
    else if data == "775" then Some(AccountLocked)
    else None
  }

  /** No failed exchange is ever reported as a missing or ambiguous user. */
  function Normalize(cfg: Config, f: Fault): (e: Error)
    ensures !e.UserNotFound? && !e.AmbiguousUser?
    ensures CredentialVerdict(e).Some? ==> f.Ldap? && f.code == INVALID_CREDENTIALS_CODE
  {
    match f
    case Ldap(code, data) =>
      if code == INVALID_CREDENTIALS_CODE then
        if cfg.adStatus && AdStatus(data).Some? then AdStatus(data).value else InvalidCredentials
      else if code == 91 then DirectoryUnavailable
      else if code == 10 then DirectoryReferral
      else Other
    case Tls => DirectoryTLS
    case Unavailable => DirectoryUnavailable
    case Referred => DirectoryReferral
    case Unclassified => Other
  }

  function CredentialVerdict(e: Error): (r: Option<Result>)
    ensures r.Some? ==> r.value.Credential() == FAILURE || r.value.Credential() == POLICY_REQUIRED
  {
    match e
    case InvalidCredentials => Some(Failed("invalid_credentials"))
    case AccountDisabled => Some(Failed("account_disabled"))
    case AccountLocked => Some(Failed("account_locked"))
    case PasswordExpired => Some(PolicyRequired("password_expired"))
    case MustChangePassword => Some(PolicyRequired("must_change_password"))
    case _ => None
  }

  function Code(f: Fault): nat {
    if f.Ldap? && f.code != 0 then f.code else 1
  }

  function Data(f: Fault): string {
    if f.Ldap? then f.data else ""
  }

  // ----- what a step does to the shared state

  datatype Change =
    | Same
    | Open                       // dial: connection `next`, anonymous
    | TakeIdle
    | Rebind(conn: nat, identity: Identity)
    | Park(conn: nat)
    | Close(conn: nat)

  datatype Effect = Effect(change: Change, ops: seq<Op>)

  const NOTHING := Effect(Same, [])

  function Perform(st: State, e: Effect): State {
    var st := st.(trace := st.trace + e.ops);
    match e.change
    case Same => st
    case Open => st.(next := st.next + 1, bound := st.bound[st.next := Anonymous])
    case TakeIdle => if st.idle == [] then st else st.(idle := st.idle[1..])
    case Rebind(conn, identity) => st.(bound := st.bound[conn := identity])
    case Park(conn) => st.(idle := st.idle + [conn])
    case Close(conn) => st.(closed := st.closed + {conn})
  }

  // ----- endings

  function Fail(s: Session, e: Error): Session {
    s.(pc := Release(false), answer := Some(if s.job.Verify? then Verdict(Failure(e)) else Tested(false, Some(e))))
  }

  function Reject(s: Session, r: Result): Session {
    s.(pc := Release(false), answer := Some(Verdict(Returned(r))))
  }

  /** The user search found nobody or several: a credential failure for a check, an error for a test. */
  function NotUnique(s: Session, e: Error): Session {
    if s.job.Verify? then Reject(s, Failed("invalid_credentials")) else Fail(s, e)
  }

  function SubjectOf(cfg: Config, s: Session): Subject {
    var id := if cfg.mode.DnTemplate? || s.found.None? then s.target
              else if s.found.value.subject != "" then s.found.value.subject else s.found.value.dn;
    Subject(id, s.username)
  }

  function Succeed(cfg: Config, s: Session, reusable: bool): Session {
    s.(pc := Release(reusable),
       answer := Some(if s.job.Verify? then Verdict(Returned(Successful(SubjectOf(cfg, s), map[], [])))
                      else Tested(true, None)))
  }

  // ----- steps

  function Begin(cfg: Config, s: Session): Session {
    match s.job
    case Test(_, _, _, _) => s.(pc := Pool)
    case Verify(username, password, _) =>
      if password == "" || cfg.preprocess(username).None? then
        s.(pc := Finished, answer := Some(Verdict(Returned(Failed("invalid_credentials")))))
      else
        s.(pc := Pool, username := cfg.preprocess(username).value)
  }

  function TakeFromPool(cfg: Config, st: State, s: Session): (Effect, Session) {
    if cfg.maxIdle == 0 || st.idle == [] || (s.job.Test? && s.job.insecure) then (NOTHING, s.(pc := Dial))
    else (Effect(TakeIdle, []), s.(pc := Validate, conn := Some(st.idle[0])))
  }

  function DialMain(s: Session, st: State, reply: Reply): (Effect, Session) {
    match reply
    case Accepted => (Effect(Open, []), s.(pc := Dispatch, conn := Some(st.next)))
    case Refused(Tls) => (NOTHING, Fail(s, DirectoryTLS).(pc := Finished))
    case _ => (NOTHING, Fail(s, DirectoryUnavailable).(pc := Finished))
  }

  /** The switch on the lookup mode. */
  function Choose(cfg: Config, s: Session): Session {
    match s.job
    case Verify(_, _, _) =>
      (match cfg.mode
       case SearchThenBind => s.(pc := BindService(UserSearch))
       case DnTemplate => s.(pc := BindUser, target := cfg.template(s.username))
       case DirectBind => s.(pc := BindUser, target := s.username)
       case Unsupported => Fail(s, Other))
    case Test(username, _, testPassword, _) =>
      if username == "" then
        if cfg.serviceSearch then s.(pc := BindService(Ping)) else s.(pc := Release(false), answer := Some(Tested(false, None)))
      else if cfg.preprocess(username).None? then Fail(s, Other)
      else
        var s := s.(username := cfg.preprocess(username).value);
        match cfg.mode
        case SearchThenBind => s.(pc := BindService(UserSearch))
        case DnTemplate =>
          if testPassword then s.(pc := BindUser, target := cfg.template(s.username))
          else s.(pc := Release(false), answer := Some(Tested(false, None)))
        case DirectBind => if cfg.serviceSearch then s.(pc := BindService(UserSearch)) else Fail(s, Other)
        case Unsupported => Fail(s, Other)
  }

  function ServiceBound(s: Session, stage: Stage): Session {
    if stage.Ping? then s.(pc := Release(true), answer := Some(Tested(false, None))) else s.(pc := Search(stage))
  }

  /** One bind request for the service account, on connection `c`. */
  function BindAsService(cfg: Config, c: nat, reply: Reply, bound: Session, failed: Error -> Session): (Effect, Session) {
    match reply
    case Accepted => (Effect(Rebind(c, Service), []), bound)
    case Refused(f) => (Effect(Rebind(c, Anonymous), []), failed(Normalize(cfg, f)))
    case _ => (NOTHING, failed(DirectoryUnavailable))
  }

  function BindAsUser(cfg: Config, id: nat, c: nat, s: Session, reply: Reply): (Effect, Session) {
    if s.job.password == "" then (NOTHING, Fail(s, InvalidCredentials))
    else
      match reply
      case Accepted =>
        (Effect(Rebind(c, User(s.target)), [UserBind(id, s.target, s.job.password, 0, "")]), UserBound(cfg, s))
      case Refused(f) =>
        (Effect(Rebind(c, Anonymous), [UserBind(id, s.target, s.job.password, Code(f), Data(f))]),
         var e := Normalize(cfg, f);
         if s.job.Verify? && CredentialVerdict(e).Some? then Reject(s, CredentialVerdict(e).value) else Fail(s, e))
      case _ => (NOTHING, Fail(s, DirectoryUnavailable))
  }

  /** Where a check goes after the directory accepted the password. */
  function UserBound(cfg: Config, s: Session): Session {
    match s.job
    case Test(_, _, _, _) => s.(pc := Restore)
    case Verify(_, _, wantsAttributes) =>
      match cfg.mode
      case DirectBind => if cfg.serviceSearch then s.(pc := BindService(UserSearch)) else Fail(s, Other)
      case DnTemplate => if wantsAttributes && cfg.serviceSearch then s.(pc := BindService(ByDn)) else s.(pc := Restore)
      case _ => s.(pc := Restore)
  }

  /** The complete answer to a search that did not fail. */
  function SearchDone(cfg: Config, s: Session, stage: Stage, entries: seq<Found>): Session {
    match stage
    case ByDn => if entries == [] then s.(pc := Search(Fallback)) else s.(pc := Restore)
    case Fallback =>
      if entries == [] then s.(pc := Restore)
      else if |entries| == 1 then s.(pc := Groups(stage))
      else Fail(s, AmbiguousUser)
    case _ =>
      if entries == [] then NotUnique(s, UserNotFound)
      else if |entries| == 1 then s.(pc := Groups(stage), found := Some(entries[0]))
      else NotUnique(s, AmbiguousUser)
  }

  /** After the group searches, whose own failures are ignored. */
  function GroupsDone(cfg: Config, s: Session, stage: Stage): Session {
    match s.job
    case Verify(_, _, _) =>
      if cfg.mode.SearchThenBind? && s.found.Some? then s.(pc := BindUser, target := s.found.value.dn) else s.(pc := Restore)
    case Test(_, _, testPassword, _) =>
      if !testPassword then s.(pc := Release(false), answer := Some(Tested(false, None)))
      else s.(pc := BindUser, target := if cfg.mode.DirectBind? || s.found.None? then s.username else SubjectOf(cfg, s).directoryId)
  }

  function SearchStep(cfg: Config, st: State, id: nat, c: nat, s: Session, stage: Stage, reply: Reply): (Effect, Session) {
    var query := Queried(id, c, if c in st.bound then st.bound[c] else Anonymous);
    match reply
    case More => (Effect(Same, [query]), s)
    case Refer =>
      (Effect(Same, [query]), if cfg.followReferrals then s.(pc := ReferDial(stage, false)) else Fail(s, DirectoryReferral))
    case Entries(entries) =>
      (Effect(Same, if stage.UserSearch? then [query, Matched(id, entries)] else [query]), SearchDone(cfg, s, stage, entries))
    case Refused(f) => (Effect(Same, [query]), Fail(s, Normalize(cfg, f)))
    case _ => (NOTHING, Fail(s, DirectoryUnavailable))
  }

  function GroupsStep(cfg: Config, st: State, id: nat, c: nat, s: Session, stage: Stage, reply: Reply): (Effect, Session) {
    var query := Queried(id, c, if c in st.bound then st.bound[c] else Anonymous);
    match reply
    case More => (Effect(Same, [query]), s)
    case Refer =>
      (Effect(Same, [query]), if cfg.followReferrals then s.(pc := ReferDial(stage, true)) else GroupsDone(cfg, s, stage))
    case Entries(_) => (Effect(Same, [query]), GroupsDone(cfg, s, stage))
    case Refused(_) => (Effect(Same, [query]), GroupsDone(cfg, s, stage))
    case _ => (NOTHING, GroupsDone(cfg, s, stage))
  }

  /** A referral lookup that failed: the search fails with it, a group lookup goes on without. */
  function ReferralOver(cfg: Config, s: Session, stage: Stage, groups: bool, fault: Option<Error>): Session {
    if fault.None? then s.(pc := if groups then Groups(stage) else Search(stage))
    else if groups then GroupsDone(cfg, s, stage)
    else Fail(s, fault.value)
  }

  function ReferralSearch(st: State, cfg: Config, id: nat, c: nat, s: Session, stage: Stage, groups: bool, reply: Reply): (Effect, Session) {
    var query := Queried(id, c, if c in st.bound then st.bound[c] else Anonymous);
    match reply
    case More => (Effect(Same, [query]), s)
    case Refer => (Effect(Same, [query]), s.(pc := ReferClose(stage, groups, Some(DirectoryReferral))))
    case Refused(f) => (Effect(Same, [query]), s.(pc := ReferClose(stage, groups, Some(Normalize(cfg, f)))))
    case Expired => (NOTHING, s.(pc := ReferClose(stage, groups, Some(DirectoryUnavailable))))
    case _ => (Effect(Same, [query]), s.(pc := ReferClose(stage, groups, None)))
  }

  /** The deferred release: back to the pool if the connection may be reused and there is room. */
  function GiveBack(cfg: Config, st: State, c: nat, s: Session, reusable: bool): (Effect, Session) {
    (Effect(if reusable && |st.idle| < cfg.maxIdle then Park(c) else Close(c), []), s.(pc := Finished, conn := None))
  }

  /** One step of session `id`.  Steps that need a connection and have none do nothing. */
  function Act(cfg: Config, st: State, id: nat, s: Session, reply: Reply): (Effect, Session) {
    match s.pc
    case Start => (NOTHING, Begin(cfg, s))
    case Pool => TakeFromPool(cfg, st, s)
    case Dial => DialMain(s, st, reply)
    case Finished => (NOTHING, s)
    case _ => if s.conn.None? then (NOTHING, s) else ActOn(cfg, st, id, s.conn.value, s, reply)
  }

  function ActOn(cfg: Config, st: State, id: nat, c: nat, s: Session, reply: Reply): (Effect, Session) {
    match s.pc
    case Validate =>
      if !cfg.serviceSearch then (NOTHING, s.(pc := Drop))
      else BindAsService(cfg, c, reply, s.(pc := Dispatch), _ => s.(pc := Drop))
    case Drop => (Effect(Close(c), []), s.(pc := Dial, conn := None))
    case Dispatch => (NOTHING, Choose(cfg, s))
    case BindService(stage) => BindAsService(cfg, c, reply, ServiceBound(s, stage), e => Fail(s, e))
    case Search(stage) => SearchStep(cfg, st, id, c, s, stage, reply)
    case Groups(stage) => GroupsStep(cfg, st, id, c, s, stage, reply)
    case BindUser => BindAsUser(cfg, id, c, s, reply)
    case Restore =>
      if cfg.maxIdle == 0 || !cfg.serviceSearch then (NOTHING, Succeed(cfg, s, false))
      else BindAsService(cfg, c, reply, Succeed(cfg, s, true), _ => Succeed(cfg, s, false))
    case Release(reusable) => GiveBack(cfg, st, c, s, reusable)
    case ReferDial(stage, groups) =>
      (match reply
       case Accepted => (Effect(Open, []), s.(pc := ReferBind(stage, groups), referral := Some(st.next)))
       case Refused(f) => (NOTHING, ReferralOver(cfg, s, stage, groups, Some(Normalize(cfg, f))))
       case _ => (NOTHING, ReferralOver(cfg, s, stage, groups, Some(DirectoryUnavailable))))
    case _ => if s.referral.None? then (NOTHING, s) else ActOnReferral(cfg, st, id, s.referral.value, s, reply)
  }

  function ActOnReferral(cfg: Config, st: State, id: nat, c: nat, s: Session, reply: Reply): (Effect, Session) {
    match s.pc
    case ReferBind(stage, groups) =>
      BindAsService(cfg, c, reply, s.(pc := ReferSearch(stage, groups)), e => s.(pc := ReferClose(stage, groups, Some(e))))
    case ReferSearch(stage, groups) => ReferralSearch(st, cfg, id, c, s, stage, groups, reply)
    case ReferClose(stage, groups, fault) =>
      (Effect(Close(c), []), ReferralOver(cfg, s, stage, groups, fault).(referral := None))
    case _ => (NOTHING, s)
  }

  // ----- runs

  datatype Step = Arrive(id: nat, job: Job) | Proceed(id: nat, reply: Reply)

  function Fresh(job: Job): Session {
    Session(job, Start, "", None, None, "", None, None)
  }

  function Apply(cfg: Config, st: State, step: Step): State {
    match step
    case Arrive(id, job) => if id in st.sessions then st else st.(sessions := st.sessions[id := Fresh(job)])
    case Proceed(id, reply) =>
      if id !in st.sessions then st
      else
        var (e, s) := Act(cfg, st, id, st.sessions[id], reply);
        Perform(st, e).(sessions := st.sessions[id := s])
  }

  const EMPTY := State(0, map[], [], {}, map[], [])

  function Run(cfg: Config, steps: seq<Step>): State {
    if steps == [] then EMPTY else Apply(cfg, Run(cfg, steps[..|steps| - 1]), steps[|steps| - 1])
  }
}
