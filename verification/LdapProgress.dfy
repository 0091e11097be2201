/** The whole answer of a password check, for every way in which the directory may answer it. */
module LdapProgress {
  import opened Directory
  import opened Wrappers
  import opened LdapSession
  import opened LdapSafety
  import LdapRefusals

  /** What the directory answers one check: to service binds, to the user bind, to each kind of search, and to
      group searches.  Connections can be opened, and there are no referrals. */
  datatype Replies = Replies(service: Reply, user: Reply, lookup: Stage -> Reply, groups: Reply) {

    predicate Plain() {
      && (service.Accepted? || service.Refused? || service.Expired?)
      && (user.Accepted? || user.Refused? || user.Expired?)
      && (forall stage :: lookup(stage).Entries? || lookup(stage).Refused? || lookup(stage).Expired?)
      && (groups.Entries? || groups.Refused? || groups.Expired?)
    }

    function At(pc: Pc): Reply {
      match pc
      case Validate => service
      case BindService(_) => service
      case Restore => service
      case Search(stage) => lookup(stage)
      case Groups(_) => groups
      case BindUser => user
      case _ => Accepted
    }
  }

  // ----- the answer, from the replies alone

  /** A check that reaches the directory. */
  predicate Serious(cfg: Config, job: Job) {
    job.Verify? && job.password != "" && cfg.preprocess(job.username).Some?
  }

  /** A service bind or a search that went wrong. */
  function Trouble(cfg: Config, r: Reply): Outcome {
    Failure(if r.Refused? then Normalize(cfg, r.fault) else DirectoryUnavailable)
  }

  /** The user bind was not accepted. */
  function Rejection(cfg: Config, r: Reply): Outcome {
    if r.Refused? && r.fault.Ldap? && r.fault.code == 49 then Returned(LdapRefusals.Refusal(cfg.adStatus, r.fault.data))
    else Trouble(cfg, r)
  }

  function Success(id: string, username: string): Outcome {
    Returned(Result("success", true, "", Subject(id, username), map[], []))
  }

  function IdOf(f: Found): string {
    if f.subject != "" then f.subject else f.dn
  }

  datatype Lookup = Unique(found: Found) | Settled(outcome: Outcome)

  /** The service bind and the user search. */
  function UserLookup(cfg: Config, d: Replies): Lookup {
    if !d.service.Accepted? then Settled(Trouble(cfg, d.service))
    else
      match d.lookup(UserSearch)
      case Entries(entries) =>
        if |entries| == 1 then Unique(entries[0]) else Settled(Returned(LdapRefusals.INVALID))
      case other => Settled(Trouble(cfg, other))
  }

  /** The attribute lookup after a template bind: by DN and, if that finds nothing, by the user filter.  It can
      fail, but finding nobody is no failure. */
  function AttributeLookup(cfg: Config, d: Replies): Option<Outcome> {
    if !d.service.Accepted? then Some(Trouble(cfg, d.service))
    else
      match d.lookup(ByDn)
      case Entries(entries) =>
        if entries != [] then None
        else
          (match d.lookup(Fallback)
           case Entries(more) => if |more| <= 1 then None else Some(Failure(AmbiguousUser))
           case other => Some(Trouble(cfg, other)))
      case other => Some(Trouble(cfg, other))
  }

  function Due(cfg: Config, job: Job, d: Replies): Outcome
    requires Serious(cfg, job)
  {
    var username := cfg.preprocess(job.username).value;
    match cfg.mode
    case SearchThenBind =>
      (match UserLookup(cfg, d)
       case Settled(outcome) => outcome
       case Unique(found) => if d.user.Accepted? then Success(IdOf(found), username) else Rejection(cfg, d.user))
    case DnTemplate =>
      if !d.user.Accepted? then Rejection(cfg, d.user)
      else if job.wantsAttributes && cfg.serviceSearch && AttributeLookup(cfg, d).Some? then AttributeLookup(cfg, d).value
      else Success(cfg.template(username), username)
    case DirectBind =>
      if !d.user.Accepted? then Rejection(cfg, d.user)
      else if !cfg.serviceSearch then Failure(Other)
      else
        (match UserLookup(cfg, d)
         case Settled(outcome) => outcome
         case Unique(found) => Success(IdOf(found), username))
    case Unsupported => Failure(Other)
  }

  /** The connection can be used again after a success whose closing service bind was accepted. */
  predicate Reusable(cfg: Config, job: Job, d: Replies)
    requires Serious(cfg, job)
  {
    && cfg.maxIdle > 0 && cfg.serviceSearch && d.service.Accepted?
    && Due(cfg, job, d).Returned? && Due(cfg, job, d).result.success
  }

  // ----- where the check can be

  predicate OnTrack(cfg: Config, s: Session, d: Replies)
    requires Serious(cfg, s.job)
  {
    && (!s.pc.Start? ==> s.username == cfg.preprocess(s.job.username).value)
    && (s.answer == if s.pc.Release? || s.pc.Finished? then Some(Verdict(Due(cfg, s.job, d))) else None)
    && (s.pc.Release? ==> s.pc.reusable == Reusable(cfg, s.job, d))
    && (s.found.Some? ==> UserLookup(cfg, d) == Unique(s.found.value) && !cfg.mode.DnTemplate?)
    && (match s.pc
        case BindService(stage) => s.found.None? && Reached(cfg, s, d, stage)
        case Search(stage) => s.found.None? && Reached(cfg, s, d, stage) && d.service.Accepted?
        case Groups(stage) => Reached(cfg, s, d, stage) && d.service.Accepted? && Listed(s, d, stage)
        case BindUser =>
          (match cfg.mode
           case SearchThenBind => s.found.Some?
           case DnTemplate => s.found.None? && s.target == cfg.template(s.username)
           case DirectBind => s.found.None?
           case Unsupported => false)
        case Restore => Due(cfg, s.job, d) == Success(if s.found.Some? then IdOf(s.found.value) else s.target, s.username)
        case Release(_) => true
        case Finished => true
        case _ => s.found.None? && !InReferral(s.pc) && !s.pc.ReferDial?)
  }

  /** What lies behind a search stage: a mode that binds the user first has done so. */
  predicate Reached(cfg: Config, s: Session, d: Replies, stage: Stage) {
    match cfg.mode
    case SearchThenBind => stage.UserSearch?
    case DirectBind => stage.UserSearch? && d.user.Accepted? && cfg.serviceSearch
    case DnTemplate =>
      && (stage.ByDn? || (stage.Fallback? && d.lookup(ByDn) == Entries([]) && d.service.Accepted?))
      && d.user.Accepted? && cfg.serviceSearch && s.job.Verify? && s.job.wantsAttributes && s.target == cfg.template(s.username)
    case Unsupported => false
  }

  /** The search has found one entry. */
  predicate Listed(s: Session, d: Replies, stage: Stage) {
    if stage.UserSearch? then s.found.Some?
    else stage.Fallback? && s.found.None? && d.lookup(Fallback).Entries? && |d.lookup(Fallback).entries| == 1
  }

  /** An upper bound on the steps left. */
  function Left(cfg: Config, pc: Pc): nat {
    match pc
    case Start => 13
    case Pool => 12
    case Validate => 11
    case Drop => 10
    case Dial => 9
    case Dispatch => 8
    case BindService(_) => if cfg.mode.SearchThenBind? then 7 else 6
    case Search(stage) => if cfg.mode.SearchThenBind? then 6 else if stage.Fallback? then 4 else 5
    case Groups(_) => if cfg.mode.SearchThenBind? then 4 else 3
    case BindUser => if cfg.mode.SearchThenBind? then 3 else 7
    case Restore => 2
    case Release(_) => 1
    case _ => 0
  }

  /** One step with the directory's reply keeps the check on track and brings it closer to its end. */
  predicate Advances(cfg: Config, s: Session, s': Session, d: Replies)
    requires Serious(cfg, s.job)
  {
    s'.job == s.job && OnTrack(cfg, s', d) && (s.pc.Finished? || Left(cfg, s'.pc) < Left(cfg, s.pc))
  }

  predicate Ready(cfg: Config, s: Session, d: Replies) {
    Serious(cfg, s.job) && d.Plain() && OnTrack(cfg, s, d)
  }

  lemma ConnectingAdvances(cfg: Config, st: State, id: nat, s: Session, d: Replies)
    requires Ready(cfg, s, d) && !Connected(s.pc)
    ensures Advances(cfg, s, Act(cfg, st, id, s, d.At(s.pc)).1, d)
  {
  }

  lemma ChoosingAdvances(cfg: Config, st: State, id: nat, c: nat, s: Session, d: Replies)
    requires Ready(cfg, s, d) && (s.pc.Validate? || s.pc.Drop? || s.pc.Dispatch?)
    ensures Advances(cfg, s, ActOn(cfg, st, id, c, s, d.At(s.pc)).1, d)
  {
  }

  lemma ServiceBindAdvances(cfg: Config, st: State, id: nat, c: nat, s: Session, d: Replies)
    requires Ready(cfg, s, d) && s.pc.BindService?
    ensures Advances(cfg, s, ActOn(cfg, st, id, c, s, d.At(s.pc)).1, d)
  {
  }

  lemma SearchingAdvances(cfg: Config, st: State, id: nat, c: nat, s: Session, d: Replies)
    requires Ready(cfg, s, d) && s.pc.Search?
    ensures Advances(cfg, s, SearchStep(cfg, st, id, c, s, s.pc.stage, d.At(s.pc)).1, d)
  {
    assert Failed("invalid_credentials") == LdapRefusals.INVALID;
  }

  lemma GroupsAdvance(cfg: Config, st: State, id: nat, c: nat, s: Session, d: Replies)
    requires Ready(cfg, s, d) && s.pc.Groups?
    ensures Advances(cfg, s, GroupsStep(cfg, st, id, c, s, s.pc.stage, d.At(s.pc)).1, d)
  {
  }

  lemma BindingAdvances(cfg: Config, st: State, id: nat, c: nat, s: Session, d: Replies)
    requires Ready(cfg, s, d) && s.pc.BindUser?
    ensures Advances(cfg, s, BindAsUser(cfg, id, c, s, d.At(s.pc)).1, d)
  {
    if d.user.Refused? {
      RejectionAdvances(cfg, id, c, s, d);
    }
  }

  lemma RejectionAdvances(cfg: Config, id: nat, c: nat, s: Session, d: Replies)
    requires Ready(cfg, s, d) && s.pc.BindUser? && d.user.Refused?
    ensures Advances(cfg, s, BindAsUser(cfg, id, c, s, d.At(s.pc)).1, d)
  {
    RejectionIs(cfg, d.user.fault);
  }

  lemma RejectionIs(cfg: Config, f: Fault)
    ensures f.Ldap? && f.code == 49 ==> CredentialVerdict(Normalize(cfg, f)) == Some(LdapRefusals.Refusal(cfg.adStatus, f.data))
    ensures !(f.Ldap? && f.code == 49) ==> CredentialVerdict(Normalize(cfg, f)) == None
  {
  }

  lemma LeavingAdvances(cfg: Config, st: State, id: nat, c: nat, s: Session, d: Replies)
    requires Ready(cfg, s, d) && (s.pc.Restore? || s.pc.Release?)
    ensures Advances(cfg, s, ActOn(cfg, st, id, c, s, d.At(s.pc)).1, d)
  {
  }

  lemma StepAdvances(cfg: Config, st: State, id: nat, s: Session, d: Replies)
    requires Ready(cfg, s, d) && (s.conn.Some? <==> Connected(s.pc))
    ensures Advances(cfg, s, Act(cfg, st, id, s, d.At(s.pc)).1, d)
  {
    if !Connected(s.pc) {
      ConnectingAdvances(cfg, st, id, s, d);
    } else if s.pc.BindUser? {
      BindingAdvances(cfg, st, id, s.conn.value, s, d);
    } else if s.pc.BindService? {
      ServiceBindAdvances(cfg, st, id, s.conn.value, s, d);
    } else if s.pc.Search? {
      SearchingAdvances(cfg, st, id, s.conn.value, s, d);
    } else if s.pc.Groups? {
      GroupsAdvance(cfg, st, id, s.conn.value, s, d);
    } else if s.pc.Restore? || s.pc.Release? {
      LeavingAdvances(cfg, st, id, s.conn.value, s, d);
    } else {
      ChoosingAdvances(cfg, st, id, s.conn.value, s, d);
    }
  }

  // ----- whole runs

  predicate IsOwn(st: State, step: Step, id: nat) {
    step.Proceed? && step.id == id && id in st.sessions
  }

  /** Every exchange of session `id` gets these replies. */
  predicate Served(cfg: Config, steps: seq<Step>, id: nat, d: Replies) {
    steps != [] ==>
      var n := |steps| - 1;
      var st := Run(cfg, steps[..n]);
      && Served(cfg, steps[..n], id, d)
      && (IsOwn(st, steps[n], id) ==> steps[n].reply == d.At(st.sessions[id].pc))
  }

  /** How many steps session `id` has made. */
  function OwnSteps(cfg: Config, steps: seq<Step>, id: nat): nat {
    if steps == [] then 0
    else
      var n := |steps| - 1;
      OwnSteps(cfg, steps[..n], id) + (if IsOwn(Run(cfg, steps[..n]), steps[n], id) then 1 else 0)
  }

  lemma ReferralKeepsJob(cfg: Config, st: State, id: nat, c: nat, s: Session, reply: Reply)
    ensures ActOnReferral(cfg, st, id, c, s, reply).1.job == s.job
  {
  }

  lemma SearchKeepsJob(cfg: Config, st: State, id: nat, c: nat, s: Session, stage: Stage, reply: Reply)
    ensures SearchStep(cfg, st, id, c, s, stage, reply).1.job == s.job
    ensures GroupsStep(cfg, st, id, c, s, stage, reply).1.job == s.job
  {
  }

  lemma ActOnKeepsJob(cfg: Config, st: State, id: nat, c: nat, s: Session, reply: Reply)
    ensures ActOn(cfg, st, id, c, s, reply).1.job == s.job
  {
    if s.pc.Search? || s.pc.Groups? {
      SearchKeepsJob(cfg, st, id, c, s, s.pc.stage, reply);
    } else if s.referral.Some? {
      ReferralKeepsJob(cfg, st, id, s.referral.value, s, reply);
    }
  }

  lemma JobStays(cfg: Config, st: State, id: nat, s: Session, reply: Reply)
    ensures Act(cfg, st, id, s, reply).1.job == s.job
  {
    if s.conn.Some? {
      ActOnKeepsJob(cfg, st, id, s.conn.value, s, reply);
    }
  }

  predicate OnSchedule(cfg: Config, s: Session, d: Replies, own: nat)
    requires Serious(cfg, s.job) && d.Plain()
  {
    OnTrack(cfg, s, d) && (s.pc.Finished? || own + Left(cfg, s.pc) <= 13)
  }

  lemma OwnStepStaysOnSchedule(cfg: Config, st: State, id: nat, d: Replies, own: nat)
    requires Inv(cfg, st) && id in st.sessions && d.Plain()
    requires Serious(cfg, st.sessions[id].job) && OnSchedule(cfg, st.sessions[id], d, own)
    ensures var s' := Apply(cfg, st, Proceed(id, d.At(st.sessions[id].pc))).sessions[id];
      s'.job == st.sessions[id].job && OnSchedule(cfg, s', d, own + 1)
  {
    assert Placed(st.bound, st.sessions[id]);
    StepAdvances(cfg, st, id, st.sessions[id], d);
  }

  lemma OthersLeaveAlone(cfg: Config, st: State, step: Step, id: nat)
    requires id in st.sessions && !IsOwn(st, step, id)
    ensures id in Apply(cfg, st, step).sessions && Apply(cfg, st, step).sessions[id] == st.sessions[id]
  {
  }

  lemma {:induction false} RunStaysOnSchedule(cfg: Config, steps: seq<Step>, id: nat, d: Replies)
    requires d.Plain() && Served(cfg, steps, id, d)
    requires id in Run(cfg, steps).sessions && Serious(cfg, Run(cfg, steps).sessions[id].job)
    ensures OnSchedule(cfg, Run(cfg, steps).sessions[id], d, OwnSteps(cfg, steps, id))
  {
    var n := |steps| - 1;
    var front := steps[..n];
    var st := Run(cfg, front);
    if id in st.sessions {
      EveryRunIsSafe(cfg, front);
      if IsOwn(st, steps[n], id) {
        JobStays(cfg, st, id, st.sessions[id], steps[n].reply);
        RunStaysOnSchedule(cfg, front, id, d);
        OwnStepStaysOnSchedule(cfg, st, id, d, OwnSteps(cfg, front, id));
      } else {
        OthersLeaveAlone(cfg, st, steps[n], id);
        RunStaysOnSchedule(cfg, front, id, d);
      }
    } else {
      NoStepsBeforeArrival(cfg, front, id);
    }
  }

  lemma {:induction false} NoStepsBeforeArrival(cfg: Config, steps: seq<Step>, id: nat)
    requires id !in Run(cfg, steps).sessions
    ensures OwnSteps(cfg, steps, id) == 0
  {
    if steps != [] {
      var n := |steps| - 1;
      assert id !in Run(cfg, steps[..n]).sessions;
      NoStepsBeforeArrival(cfg, steps[..n], id);
    }
  }

  /** Whatever the directory answers, every serious check ends within thirteen of its own steps, in every
      interleaving, and its answer is the one due to these replies. */
  lemma DirectoryDecides(cfg: Config, steps: seq<Step>, id: nat, d: Replies)
    requires d.Plain() && Served(cfg, steps, id, d)
    requires id in Run(cfg, steps).sessions && Serious(cfg, Run(cfg, steps).sessions[id].job)
    ensures var s := Run(cfg, steps).sessions[id];
      && (OwnSteps(cfg, steps, id) >= 13 ==> s.pc.Finished?)
      && (s.pc.Finished? ==> s.answer == Some(Verdict(Due(cfg, s.job, d))))
  {
    RunStaysOnSchedule(cfg, steps, id, d);
  }
}
