/** What the directory says against a password check is what the caller hears: no refusal turns into an error. */
module LdapRefusals {
  import opened Directory
  import opened Wrappers
  import opened LdapSession
  import opened LdapSafety

  const INVALID := Result("failure", false, "invalid_credentials", NOBODY, map[], [])

  /** The answer to a user bind that failed with code 49 and this diagnostic data. */
  function Refusal(adStatus: bool, data: string): Result {
    if adStatus && data == "532" then Result("policy_required", false, "password_expired", NOBODY, map[], [])
    else if adStatus && data == "773" then Result("policy_required", false, "must_change_password", NOBODY, map[], [])
    else if adStatus && data == "533" then Result("failure", false, "account_disabled", NOBODY, map[], [])
    else if adStatus && data == "775" then Result("failure", false, "account_locked", NOBODY, map[], [])
    else INVALID
  }

  predicate Answers(s: Session, r: Result) {
    s.answer == Some(Verdict(Returned(r)))
  }

  /** The check gives the answer that an exchange calls for, if it calls for one. */
  predicate Heeds(cfg: Config, s: Session, op: Op) {
    && (op.Matched? && |op.entries| != 1 ==> Answers(s, INVALID))
    && (op.UserBind? && op.code == 49 ==> Answers(s, Refusal(cfg.adStatus, op.data)))
  }

  /** A check has heeded all its exchanges, and what it was asked. */
  ghost predicate Fair(cfg: Config, id: nat, s: Session, trace: seq<Op>) {
    s.job.Verify? ==>
      && (forall op :: op in trace && op.id == id ==> Heeds(cfg, s, op))
      && (!s.pc.Start? && (s.job.password == "" || cfg.preprocess(s.job.username).None?) ==> Answers(s, INVALID))
      && (s.answer.Some? <==> s.pc.Release? || s.pc.Finished?)
  }

  // ----- one step

  /** The exchanges of a step are the session's own and heeded, and an answer once given stays. */
  predicate Heedful(cfg: Config, id: nat, s: Session, ops: seq<Op>, s': Session) {
    && s'.job == s.job
    && (forall i :: 0 <= i < |ops| ==> ops[i].id == id && (s.job.Verify? ==> Heeds(cfg, s', ops[i])))
    && (s.job.Verify? && s.answer.Some? ==> s'.answer == s.answer)
    && (s.job.Verify? && !s.pc.Start? ==> !s'.pc.Start?)
    && (s.job.Verify? ==> (s'.answer.Some? <==> s'.pc.Release? || s'.pc.Finished?))
  }

  predicate Ready(s: Session) {
    s.job.Verify? ==> (s.answer.Some? <==> s.pc.Release? || s.pc.Finished?)
  }

  lemma UserBindIsHeedful(cfg: Config, id: nat, c: nat, s: Session, reply: Reply)
    requires Ready(s) && s.pc.BindUser?
    ensures var (e, s') := BindAsUser(cfg, id, c, s, reply); Heedful(cfg, id, s, e.ops, s')
  {
    assert Failed("invalid_credentials") == INVALID;
  }

  lemma SearchIsHeedful(cfg: Config, st: State, id: nat, c: nat, s: Session, reply: Reply)
    requires Ready(s) && s.pc.Search?
    ensures var (e, s') := SearchStep(cfg, st, id, c, s, s.pc.stage, reply); Heedful(cfg, id, s, e.ops, s')
  {
    assert Failed("invalid_credentials") == INVALID;
  }

  lemma GroupsAreHeedful(cfg: Config, st: State, id: nat, c: nat, s: Session, reply: Reply)
    requires Ready(s) && s.pc.Groups?
    ensures var (e, s') := GroupsStep(cfg, st, id, c, s, s.pc.stage, reply); Heedful(cfg, id, s, e.ops, s')
  {
  }

  lemma ReferralIsHeedful(cfg: Config, st: State, id: nat, c: nat, s: Session, reply: Reply)
    requires Ready(s) && InReferral(s.pc)
    ensures var (e, s') := ActOnReferral(cfg, st, id, c, s, reply); Heedful(cfg, id, s, e.ops, s')
  {
  }

  lemma QuietStepIsHeedful(cfg: Config, st: State, id: nat, c: nat, s: Session, reply: Reply)
    requires Ready(s) && (s.pc.Validate? || s.pc.Drop? || s.pc.BindService? || s.pc.Restore? || s.pc.Release?)
    ensures var (e, s') := ActOn(cfg, st, id, c, s, reply); Heedful(cfg, id, s, e.ops, s')
  {
  }

  lemma ChoiceIsHeedful(cfg: Config, st: State, id: nat, c: nat, s: Session, reply: Reply)
    requires Ready(s) && (s.pc.Dispatch? || s.pc.ReferDial?)
    ensures var (e, s') := ActOn(cfg, st, id, c, s, reply); Heedful(cfg, id, s, e.ops, s')
  {
  }

  lemma StartIsHeedful(cfg: Config, st: State, id: nat, s: Session, reply: Reply)
    requires Ready(s) && !Connected(s.pc)
    ensures var (e, s') := Act(cfg, st, id, s, reply); Heedful(cfg, id, s, e.ops, s')
    ensures s.job.Verify? && s.pc.Start? && (s.job.password == "" || cfg.preprocess(s.job.username).None?) ==>
      Answers(Act(cfg, st, id, s, reply).1, INVALID)
  {
    assert Failed("invalid_credentials") == INVALID;
  }

  lemma ActIsHeedful(cfg: Config, st: State, id: nat, s: Session, reply: Reply)
    requires Ready(s) && Placed(st.bound, s)
    ensures var (e, s') := Act(cfg, st, id, s, reply); Heedful(cfg, id, s, e.ops, s')
  {
    if !Connected(s.pc) {
      StartIsHeedful(cfg, st, id, s, reply);
    } else {
      var c := s.conn.value;
      if s.pc.Search? {
        SearchIsHeedful(cfg, st, id, c, s, reply);
      } else if s.pc.Groups? {
        GroupsAreHeedful(cfg, st, id, c, s, reply);
      } else if s.pc.BindUser? {
        UserBindIsHeedful(cfg, id, c, s, reply);
      } else if InReferral(s.pc) {
        ReferralIsHeedful(cfg, st, id, s.referral.value, s, reply);
      } else if s.pc.Dispatch? || s.pc.ReferDial? {
        ChoiceIsHeedful(cfg, st, id, c, s, reply);
      } else {
        QuietStepIsHeedful(cfg, st, id, c, s, reply);
      }
    }
  }

  lemma StaysFair(cfg: Config, id: nat, s: Session, trace: seq<Op>, ops: seq<Op>, s': Session)
    requires Fair(cfg, id, s, trace) && Heedful(cfg, id, s, ops, s')
    requires s.job.Verify? && s.pc.Start? && (s.job.password == "" || cfg.preprocess(s.job.username).None?) ==> Answers(s', INVALID)
    ensures Fair(cfg, id, s', trace + ops)
  {
    if s.job.Verify? {
      forall op | op in trace + ops && op.id == id ensures Heeds(cfg, s', op) {
        if op in trace {
          assert Heeds(cfg, s, op);
        } else {
          var i :| 0 <= i < |ops| && ops[i] == op;
        }
      }
    }
  }

  // ----- every run

  ghost predicate AllFair(cfg: Config, st: State) {
    && (forall id :: id in st.sessions ==> Fair(cfg, id, st.sessions[id], st.trace))
    && (forall op :: op in st.trace ==> op.id in st.sessions)
  }

  lemma ProceedIsFair(cfg: Config, st: State, id: nat, reply: Reply)
    requires Inv(cfg, st) && AllFair(cfg, st) && id in st.sessions
    ensures AllFair(cfg, Apply(cfg, st, Proceed(id, reply)))
  {
    var s := st.sessions[id];
    var (e, s') := Act(cfg, st, id, s, reply);
    assert Placed(st.bound, s) && Fair(cfg, id, s, st.trace);
    ActIsHeedful(cfg, st, id, s, reply);
    if s.pc.Start? {
      StartIsHeedful(cfg, st, id, s, reply);
    }
    StaysFair(cfg, id, s, st.trace, e.ops, s');
    OthersStayFair(cfg, st, id, e.ops, s');
    var st' := Apply(cfg, st, Proceed(id, reply));
    var fair := st.(sessions := st.sessions[id := s'], trace := st.trace + e.ops);
    assert st'.trace == fair.trace && st'.sessions == fair.sessions;
  }

  lemma OthersStayFair(cfg: Config, st: State, id: nat, ops: seq<Op>, s: Session)
    requires AllFair(cfg, st) && id in st.sessions && Fair(cfg, id, s, st.trace + ops)
    requires forall i :: 0 <= i < |ops| ==> ops[i].id == id
    ensures AllFair(cfg, st.(sessions := st.sessions[id := s], trace := st.trace + ops))
  {
    var sessions := st.sessions[id := s];
    forall other | other in sessions ensures Fair(cfg, other, sessions[other], st.trace + ops) {
      if other != id {
        assert Fair(cfg, other, st.sessions[other], st.trace);
        assert forall op :: op in st.trace + ops && op.id == other ==> op in st.trace;
      }
    }
  }

  lemma {:induction false} EveryRunIsFair(cfg: Config, steps: seq<Step>)
    ensures AllFair(cfg, Run(cfg, steps))
  {
    if steps != [] {
      var st, step := Run(cfg, steps[..|steps| - 1]), steps[|steps| - 1];
      EveryRunIsFair(cfg, steps[..|steps| - 1]);
      EveryRunIsSafe(cfg, steps[..|steps| - 1]);
      if step.Proceed? && step.id in st.sessions {
        ProceedIsFair(cfg, st, step.id, step.reply);
      }
    }
  }

  /** The converse of soundness: in every run a finished check whose password was empty, whose user name was
      rejected, whose user search matched nobody or several, or whose user bind got code 49, is answered with
      the refusal that belongs to it and never with an error. */
  lemma RefusalsAreGiven(cfg: Config, steps: seq<Step>, id: nat)
    requires var st := Run(cfg, steps); id in st.sessions && st.sessions[id].job.Verify? && st.sessions[id].pc.Finished?
    ensures var st := Run(cfg, steps);
      var s := st.sessions[id];
      && (s.job.password == "" || cfg.preprocess(s.job.username).None? ==> Answers(s, INVALID))
      && (forall entries :: Matched(id, entries) in st.trace && |entries| != 1 ==> Answers(s, INVALID))
      && (forall name, password, data :: UserBind(id, name, password, 49, data) in st.trace ==>
            Answers(s, Refusal(cfg.adStatus, data)))
  {
    EveryRunIsFair(cfg, steps);
    var st := Run(cfg, steps);
    assert Fair(cfg, id, st.sessions[id], st.trace);
    forall entries | Matched(id, entries) in st.trace && |entries| != 1 ensures Answers(st.sessions[id], INVALID) {
      assert Heeds(cfg, st.sessions[id], Matched(id, entries));
    }
    forall name, password, data | UserBind(id, name, password, 49, data) in st.trace
      ensures Answers(st.sessions[id], Refusal(cfg.adStatus, data))
    {
      assert Heeds(cfg, st.sessions[id], UserBind(id, name, password, 49, data));
    }
  }
}
