/** The name a password is tried under: a password check and a connection test do not always agree. */
module LdapNames {
  import opened Directory
  import opened Wrappers
  import opened LdapSession
  import opened LdapSafety

  function SubjectId(f: Found): string {
    if f.subject != "" then f.subject else f.dn
  }

  /** Where the name of a test in search-then-bind mode comes from. */
  predicate Named(cfg: Config, s: Session) {
    cfg.mode.SearchThenBind? && s.job.Test? ==>
      && (StageOf(s.pc).Some? ==> StageOf(s.pc).value.UserSearch? || StageOf(s.pc).value.Ping?)
      && (s.pc.Search? || InGroups(s.pc) || s.pc.ReferDial? || InReferral(s.pc) ==> StageOf(s.pc) == Some(UserSearch))
      && (InGroups(s.pc) ==> s.found.Some?)
      && (s.pc.BindUser? ==> s.found.Some? && s.target == SubjectId(s.found.value))
  }

  lemma ReferralKeepsName(cfg: Config, st: State, id: nat, c: nat, s: Session, reply: Reply)
    requires Named(cfg, s) && InReferral(s.pc)
    ensures Named(cfg, ActOnReferral(cfg, st, id, c, s, reply).1)
  {
  }

  lemma SearchKeepsName(cfg: Config, st: State, id: nat, c: nat, s: Session, reply: Reply)
    requires Named(cfg, s) && (s.pc.Search? || s.pc.Groups?)
    ensures Named(cfg, ActOn(cfg, st, id, c, s, reply).1)
  {
  }

  lemma ActOnKeepsName(cfg: Config, st: State, id: nat, c: nat, s: Session, reply: Reply)
    requires Named(cfg, s)
    ensures Named(cfg, ActOn(cfg, st, id, c, s, reply).1)
  {
    if InReferral(s.pc) && s.referral.Some? {
      ReferralKeepsName(cfg, st, id, s.referral.value, s, reply);
    } else if s.pc.Search? || s.pc.Groups? {
      SearchKeepsName(cfg, st, id, c, s, reply);
    } else if s.pc.BindUser? || s.pc.Restore? {
      UserBindKeepsName(cfg, st, id, c, s, reply);
    } else if s.pc.Dispatch? || s.pc.BindService? {
      DispatchKeepsName(cfg, st, id, c, s, reply);
    } else if s.pc.ReferDial? {
      DialKeepsName(cfg, st, id, c, s, reply);
    }
  }

  lemma UserBindKeepsName(cfg: Config, st: State, id: nat, c: nat, s: Session, reply: Reply)
    requires Named(cfg, s) && (s.pc.BindUser? || s.pc.Restore?)
    ensures Named(cfg, ActOn(cfg, st, id, c, s, reply).1)
  {
  }

  lemma DispatchKeepsName(cfg: Config, st: State, id: nat, c: nat, s: Session, reply: Reply)
    requires Named(cfg, s) && (s.pc.Dispatch? || s.pc.BindService?)
    ensures Named(cfg, ActOn(cfg, st, id, c, s, reply).1)
  {
  }

  lemma DialKeepsName(cfg: Config, st: State, id: nat, c: nat, s: Session, reply: Reply)
    requires Named(cfg, s) && s.pc.ReferDial?
    ensures Named(cfg, ActOn(cfg, st, id, c, s, reply).1)
  {
  }

  lemma ActKeepsName(cfg: Config, st: State, id: nat, s: Session, reply: Reply)
    requires Named(cfg, s)
    ensures Named(cfg, Act(cfg, st, id, s, reply).1)
  {
    if s.conn.Some? {
      ActOnKeepsName(cfg, st, id, s.conn.value, s, reply);
    }
  }

  ghost predicate AllNamed(cfg: Config, st: State) {
    forall id :: id in st.sessions ==> Named(cfg, st.sessions[id])
  }

  lemma StepKeepsNames(cfg: Config, st: State, step: Step)
    requires AllNamed(cfg, st)
    ensures AllNamed(cfg, Apply(cfg, st, step))
  {
    if step.Proceed? && step.id in st.sessions {
      ActKeepsName(cfg, st, step.id, st.sessions[step.id], step.reply);
    }
  }

  lemma {:induction false} EveryRunIsNamed(cfg: Config, steps: seq<Step>)
    ensures AllNamed(cfg, Run(cfg, steps))
  {
    if steps != [] {
      EveryRunIsNamed(cfg, steps[..|steps| - 1]);
      StepKeepsNames(cfg, Run(cfg, steps[..|steps| - 1]), steps[|steps| - 1]);
    }
  }

  /** In search-then-bind mode a check binds with the DN of the entry found and a test with its subject id;
      the two names are the same exactly when the entry has no subject value of its own or it is the DN. */
  lemma BindNames(cfg: Config, steps: seq<Step>, id: nat)
    requires var st := Run(cfg, steps); cfg.mode.SearchThenBind? && id in st.sessions && st.sessions[id].pc.BindUser?
    ensures var s := Run(cfg, steps).sessions[id];
      && s.found.Some?
      && (s.job.Verify? ==> s.target == s.found.value.dn)
      && (s.job.Test? ==> (s.target == s.found.value.dn <==> s.found.value.subject == "" || s.found.value.subject == s.found.value.dn))
  {
    EveryRunIsSafe(cfg, steps);
    EveryRunIsNamed(cfg, steps);
    var st := Run(cfg, steps);
    assert Sound(cfg, id, st.sessions[id], st.trace) && Named(cfg, st.sessions[id]);
  }

  // ----- an entry with a subject value

  /** Session 0 stands at `s`, and nothing idles in the pool. */
  ghost predicate Stands(cfg: Config, steps: seq<Step>, s: Session) {
    var st := Run(cfg, steps); st.idle == [] && 0 in st.sessions && st.sessions[0] == s
  }

  lemma Next(cfg: Config, steps: seq<Step>, s: Session, reply: Reply, s': Session) returns (longer: seq<Step>)
    requires Stands(cfg, steps, s)
    requires Act(cfg, Run(cfg, steps), 0, s, reply).1 == s' && !Act(cfg, Run(cfg, steps), 0, s, reply).0.change.Park?
    ensures longer == steps + [Proceed(0, reply)] && Stands(cfg, longer, s')
  {
    longer := steps + [Proceed(0, reply)];
    assert longer[..|steps|] == steps;
  }

  lemma TestArrives(cfg: Config, job: Job) returns (steps: seq<Step>)
    requires job.Test?
    ensures Stands(cfg, steps, Fresh(job).(pc := Dial))
  {
    var a := [Arrive(0, job)];
    assert a[..0] == [];
    assert Stands(cfg, a, Fresh(job));
    var b := Next(cfg, a, Fresh(job), Accepted, Fresh(job).(pc := Pool));
    steps := Next(cfg, b, Fresh(job).(pc := Pool), Accepted, Fresh(job).(pc := Dial));
  }

  lemma TestDispatches(cfg: Config, job: Job, name: string) returns (steps: seq<Step>, s: Session)
    requires cfg.mode.SearchThenBind? && job.Test? && job.username != "" && cfg.preprocess(job.username) == Some(name)
    ensures Stands(cfg, steps, s) && s.conn.Some? && s == Fresh(job).(pc := Search(UserSearch), username := name, conn := s.conn)
  {
    steps := TestArrives(cfg, job);
    var c := Some(Run(cfg, steps).next);
    var dialled := Fresh(job).(pc := Dispatch, conn := c);
    var chosen := dialled.(pc := BindService(UserSearch), username := name);
    steps := Next(cfg, steps, Fresh(job).(pc := Dial), Accepted, dialled);
    steps := Next(cfg, steps, dialled, Accepted, chosen);
    s := chosen.(pc := Search(UserSearch));
    steps := Next(cfg, steps, chosen, Accepted, s);
  }

  /** A test of an entry with another subject value tries the password under that value, where a check
      would try it under the DN. */
  lemma TestBindsSubject(cfg: Config, job: Job, name: string, entry: Found) returns (steps: seq<Step>)
    requires cfg.mode.SearchThenBind? && job.Test? && job.testPassword && job.username != ""
    requires cfg.preprocess(job.username) == Some(name) && entry.subject != "" && entry.subject != entry.dn
    ensures var st := Run(cfg, steps);
      0 in st.sessions && st.sessions[0].pc.BindUser? && st.sessions[0].found == Some(entry) && st.sessions[0].target == entry.subject
  {
    var s;
    steps, s := TestDispatches(cfg, job, name);
    var found := s.(pc := Groups(UserSearch), found := Some(entry));
    steps := Next(cfg, steps, s, Entries([entry]), found);
    steps := Next(cfg, steps, found, Accepted, found.(pc := BindUser, target := entry.subject));
  }
}
