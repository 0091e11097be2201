/** The whole outcome of a connection test, for every way in which the directory may answer it. */
module LdapTesting {
  import opened Directory
  import opened Wrappers
  import opened LdapSession
  import opened LdapSafety
  import opened LdapProgress

  function TroubleOf(cfg: Config, r: Reply): Error {
    if r.Refused? then Normalize(cfg, r.fault) else DirectoryUnavailable
  }

  /** The password part: an empty password is never sent. */
  function PasswordTest(cfg: Config, job: Job, d: Replies): Answer
    requires job.Test?
  {
    if !job.testPassword then Tested(false, None)
    else if job.password == "" then Tested(false, Some(InvalidCredentials))
    else if d.user.Accepted? then Tested(true, None)
    else Tested(false, Some(TroubleOf(cfg, d.user)))
  }

  /** The user search, for which nobody and several are errors here. */
  function SearchTest(cfg: Config, job: Job, d: Replies): Answer
    requires job.Test?
  {
    if !d.service.Accepted? then Tested(false, Some(TroubleOf(cfg, d.service)))
    else
      match d.lookup(UserSearch)
      case Entries(entries) =>
        if entries == [] then Tested(false, Some(UserNotFound))
        else if |entries| > 1 then Tested(false, Some(AmbiguousUser))
        else PasswordTest(cfg, job, d)
      case other => Tested(false, Some(TroubleOf(cfg, other)))
  }

  function DueTest(cfg: Config, job: Job, d: Replies): Answer
    requires job.Test?
  {
    if job.username == "" then
      if cfg.serviceSearch && !d.service.Accepted? then Tested(false, Some(TroubleOf(cfg, d.service))) else Tested(false, None)
    else if cfg.preprocess(job.username).None? then Tested(false, Some(Other))
    else
      match cfg.mode
      case SearchThenBind => SearchTest(cfg, job, d)
      case DnTemplate => PasswordTest(cfg, job, d)
      case DirectBind => if cfg.serviceSearch then SearchTest(cfg, job, d) else Tested(false, Some(Other))
      case Unsupported => Tested(false, Some(Other))
  }

  // ----- where the test can be

  predicate OnCourse(cfg: Config, s: Session, d: Replies)
    requires s.job.Test?
  {
    && (s.answer == if s.pc.Release? || s.pc.Finished? then Some(DueTest(cfg, s.job, d)) else None)
    && (match s.pc
        case BindService(stage) =>
          if stage.Ping? then s.job.username == "" && cfg.serviceSearch else stage.UserSearch? && Searches(cfg, s, d)
        case Search(stage) => stage.UserSearch? && Searches(cfg, s, d) && d.service.Accepted?
        case Groups(stage) => stage.UserSearch? && Searches(cfg, s, d) && DueTest(cfg, s.job, d) == PasswordTest(cfg, s.job, d)
        case BindUser => DueTest(cfg, s.job, d) == PasswordTest(cfg, s.job, d) && s.job.testPassword
        case Restore => DueTest(cfg, s.job, d) == Tested(true, None)
        case ReferDial(_, _) => false
        case _ => !InReferral(s.pc))
  }

  predicate Searches(cfg: Config, s: Session, d: Replies)
    requires s.job.Test?
  {
    DueTest(cfg, s.job, d) == SearchTest(cfg, s.job, d)
  }

  function Remaining(pc: Pc): nat {
    match pc
    case Start => 12
    case Pool => 11
    case Validate => 10
    case Drop => 9
    case Dial => 8
    case Dispatch => 7
    case BindService(_) => 6
    case Search(_) => 5
    case Groups(_) => 4
    case BindUser => 3
    case Restore => 2
    case Release(_) => 1
    case _ => 0
  }

  predicate Proceeds(cfg: Config, s: Session, s': Session, d: Replies)
    requires s.job.Test?
  {
    s'.job == s.job && OnCourse(cfg, s', d) && (s.pc.Finished? || Remaining(s'.pc) < Remaining(s.pc))
  }

  predicate Testing(cfg: Config, s: Session, d: Replies) {
    s.job.Test? && d.Plain() && OnCourse(cfg, s, d)
  }

  lemma ConnectingProceeds(cfg: Config, st: State, id: nat, s: Session, d: Replies)
    requires Testing(cfg, s, d) && !Connected(s.pc)
    ensures Proceeds(cfg, s, Act(cfg, st, id, s, d.At(s.pc)).1, d)
  {
  }

  lemma ChoosingProceeds(cfg: Config, st: State, id: nat, c: nat, s: Session, d: Replies)
    requires Testing(cfg, s, d) && (s.pc.Validate? || s.pc.Drop? || s.pc.Dispatch?)
    ensures Proceeds(cfg, s, ActOn(cfg, st, id, c, s, d.At(s.pc)).1, d)
  {
  }

  lemma ServiceBindProceeds(cfg: Config, st: State, id: nat, c: nat, s: Session, d: Replies)
    requires Testing(cfg, s, d) && s.pc.BindService?
    ensures Proceeds(cfg, s, ActOn(cfg, st, id, c, s, d.At(s.pc)).1, d)
  {
  }

  lemma SearchingProceeds(cfg: Config, st: State, id: nat, c: nat, s: Session, d: Replies)
    requires Testing(cfg, s, d) && s.pc.Search?
    ensures Proceeds(cfg, s, SearchStep(cfg, st, id, c, s, s.pc.stage, d.At(s.pc)).1, d)
  {
  }

  lemma GroupsProceed(cfg: Config, st: State, id: nat, c: nat, s: Session, d: Replies)
    requires Testing(cfg, s, d) && s.pc.Groups?
    ensures Proceeds(cfg, s, GroupsStep(cfg, st, id, c, s, s.pc.stage, d.At(s.pc)).1, d)
  {
  }

  lemma BindingProceeds(cfg: Config, st: State, id: nat, c: nat, s: Session, d: Replies)
    requires Testing(cfg, s, d) && s.pc.BindUser?
    ensures Proceeds(cfg, s, BindAsUser(cfg, id, c, s, d.At(s.pc)).1, d)
  {
  }

  lemma LeavingProceeds(cfg: Config, st: State, id: nat, c: nat, s: Session, d: Replies)
    requires Testing(cfg, s, d) && (s.pc.Restore? || s.pc.Release?)
    ensures Proceeds(cfg, s, ActOn(cfg, st, id, c, s, d.At(s.pc)).1, d)
  {
  }

  lemma StepProceeds(cfg: Config, st: State, id: nat, s: Session, d: Replies)
    requires Testing(cfg, s, d) && (s.conn.Some? <==> Connected(s.pc))
    ensures Proceeds(cfg, s, Act(cfg, st, id, s, d.At(s.pc)).1, d)
  {
    if !Connected(s.pc) {
      ConnectingProceeds(cfg, st, id, s, d);
    } else if s.pc.BindUser? {
      BindingProceeds(cfg, st, id, s.conn.value, s, d);
    } else if s.pc.BindService? {
      ServiceBindProceeds(cfg, st, id, s.conn.value, s, d);
    } else if s.pc.Search? {
      SearchingProceeds(cfg, st, id, s.conn.value, s, d);
    } else if s.pc.Groups? {
      GroupsProceed(cfg, st, id, s.conn.value, s, d);
    } else if s.pc.Restore? || s.pc.Release? {
      LeavingProceeds(cfg, st, id, s.conn.value, s, d);
    } else {
      ChoosingProceeds(cfg, st, id, s.conn.value, s, d);
    }
  }

  // ----- whole runs

  predicate OnTime(cfg: Config, s: Session, d: Replies, own: nat) {
    Testing(cfg, s, d) && (s.pc.Finished? || own + Remaining(s.pc) <= 12)
  }

  lemma OwnStepIsOnTime(cfg: Config, st: State, id: nat, d: Replies, own: nat)
    requires Inv(cfg, st) && id in st.sessions && OnTime(cfg, st.sessions[id], d, own)
    ensures OnTime(cfg, Apply(cfg, st, Proceed(id, d.At(st.sessions[id].pc))).sessions[id], d, own + 1)
  {
    assert Placed(st.bound, st.sessions[id]);
    StepProceeds(cfg, st, id, st.sessions[id], d);
  }

  lemma {:induction false} RunIsOnTime(cfg: Config, steps: seq<Step>, id: nat, d: Replies)
    requires d.Plain() && Served(cfg, steps, id, d)
    requires id in Run(cfg, steps).sessions && Run(cfg, steps).sessions[id].job.Test?
    ensures OnTime(cfg, Run(cfg, steps).sessions[id], d, OwnSteps(cfg, steps, id))
  {
    var n := |steps| - 1;
    var front := steps[..n];
    var st := Run(cfg, front);
    if id in st.sessions {
      EveryRunIsSafe(cfg, front);
      if IsOwn(st, steps[n], id) {
        JobStays(cfg, st, id, st.sessions[id], steps[n].reply);
        RunIsOnTime(cfg, front, id, d);
        OwnStepIsOnTime(cfg, st, id, d, OwnSteps(cfg, front, id));
      } else {
        OthersLeaveAlone(cfg, st, steps[n], id);
        RunIsOnTime(cfg, front, id, d);
      }
    } else {
      NoStepsBeforeArrival(cfg, front, id);
    }
  }

  /** Whatever the directory answers, every test ends within twelve of its own steps, in every interleaving,
      with the outcome due to these replies: the password is reported good only when it was tried and accepted. */
  lemma DirectoryDecidesTest(cfg: Config, steps: seq<Step>, id: nat, d: Replies)
    requires d.Plain() && Served(cfg, steps, id, d)
    requires id in Run(cfg, steps).sessions && Run(cfg, steps).sessions[id].job.Test?
    ensures var s := Run(cfg, steps).sessions[id];
      && (OwnSteps(cfg, steps, id) >= 12 ==> s.pc.Finished?)
      && (s.pc.Finished? ==> s.answer == Some(DueTest(cfg, s.job, d)))
  {
    RunIsOnTime(cfg, steps, id, d);
  }
}
