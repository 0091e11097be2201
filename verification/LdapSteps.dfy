/** What single exchanges do: to the connection, to the error reported, to a referral. */
module LdapSteps {
  import opened Directory
  import opened Wrappers
  import opened LdapSession
  import opened LdapSafety

  /** A failed dial is an error of its own kind, for checks and tests alike. */
  lemma DialFailureIsReported(cfg: Config, st: State, id: nat, s: Session, reply: Reply)
    requires s.pc.Dial? && !reply.Accepted?
    ensures var (e, s') := Act(cfg, st, id, s, reply);
      var error := if reply == LdapSession.Refused(Tls) then DirectoryTLS else DirectoryUnavailable;
      && e == NOTHING && s'.pc.Finished?
      && s'.answer == Some(if s.job.Verify? then Verdict(Failure(error)) else Tested(false, Some(error)))
  {
  }

  /** The pool serves whoever finds a connection idle, except tests without certificate checks. */
  lemma PoolServes(cfg: Config, st: State, id: nat, s: Session, reply: Reply)
    requires s.pc.Pool?
    ensures var (e, s') := Act(cfg, st, id, s, reply);
      if cfg.maxIdle > 0 && st.idle != [] && (s.job.Verify? || !s.job.insecure)
      then e.change.TakeIdle? && s'.conn == Some(st.idle[0]) && s'.pc.Validate?
      else e == NOTHING && s'.pc.Dial?
  {
  }

  /** Which fault is reported as which error. */
  lemma FaultsByError(cfg: Config, f: Fault)
    ensures Normalize(cfg, f) == DirectoryUnavailable <==> f.Unavailable? || (f.Ldap? && f.code == 91)
    ensures Normalize(cfg, f) == DirectoryReferral <==> f.Referred? || (f.Ldap? && f.code == 10)
    ensures Normalize(cfg, f) == DirectoryTLS <==> f.Tls?
    ensures Normalize(cfg, f) == PasswordExpired <==> f.Ldap? && f.code == 49 && cfg.adStatus && f.data == "532"
    ensures Normalize(cfg, f) == AccountDisabled <==> f.Ldap? && f.code == 49 && cfg.adStatus && f.data == "533"
    ensures Normalize(cfg, f) == MustChangePassword <==> f.Ldap? && f.code == 49 && cfg.adStatus && f.data == "773"
    ensures Normalize(cfg, f) == AccountLocked <==> f.Ldap? && f.code == 49 && cfg.adStatus && f.data == "775"
    ensures Normalize(cfg, f) == InvalidCredentials <==>
      f.Ldap? && f.code == 49 && !(cfg.adStatus && (f.data == "532" || f.data == "533" || f.data == "773" || f.data == "775"))
    ensures Normalize(cfg, f) == Other <==> f.Unclassified? || (f.Ldap? && f.code != 49 && f.code != 91 && f.code != 10)
  {
  }

  // ----- bindings

  /** What a bind request makes of the connection's identity (section 4 of RFC 4513): what was accepted is the
      new identity, what was refused leaves it anonymous, and a request that is not sent changes nothing. */
  ghost predicate Binds(st: State, e: Effect, c: nat, reply: Reply, identity: Identity) {
    var bound := Perform(st, e).bound;
    match reply
    case Accepted => c in bound && bound[c] == identity
    case Refused(_) => c in bound && bound[c] == Anonymous
    case _ => bound == st.bound
  }

  lemma ServiceBindsBind(cfg: Config, st: State, id: nat, s: Session, reply: Reply)
    requires s.conn.Some? && (s.pc.BindService? || (s.pc.Validate? && cfg.serviceSearch)
                              || (s.pc.Restore? && cfg.serviceSearch && cfg.maxIdle > 0))
    ensures Binds(st, Act(cfg, st, id, s, reply).0, s.conn.value, reply, Service)
  {
  }

  lemma ReferralBindBinds(cfg: Config, st: State, id: nat, s: Session, reply: Reply)
    requires s.conn.Some? && s.pc.ReferBind? && s.referral.Some?
    ensures Binds(st, Act(cfg, st, id, s, reply).0, s.referral.value, reply, Service)
  {
  }

  lemma UserBindBinds(cfg: Config, st: State, id: nat, s: Session, reply: Reply)
    requires s.conn.Some? && s.pc.BindUser? && s.job.password != ""
    ensures Binds(st, Act(cfg, st, id, s, reply).0, s.conn.value, reply, User(s.target))
    ensures reply.Accepted? ==> Act(cfg, st, id, s, reply).0.ops == [UserBind(id, s.target, s.job.password, 0, "")]
    ensures reply.Refused? && reply.fault.Ldap? && reply.fault.code != 0 ==>
      Act(cfg, st, id, s, reply).0.ops == [UserBind(id, s.target, s.job.password, reply.fault.code, reply.fault.data)]
  {
  }

  /** A new connection is anonymous, and it is the session's. */
  lemma DialsAreAnonymous(cfg: Config, st: State, id: nat, s: Session)
    requires s.pc.Dial?
    ensures var (e, s') := Act(cfg, st, id, s, Accepted);
      s'.conn == Some(st.next) && Perform(st, e).bound == st.bound[st.next := Anonymous] && Perform(st, e).next == st.next + 1
  {
  }

  // ----- referrals

  /** A referral is followed if the policy says so; otherwise the search fails with it, and a group lookup ends. */
  lemma ReferralNeedsPolicy(cfg: Config, st: State, id: nat, s: Session)
    requires s.conn.Some? && s.job.Verify? && (s.pc.Search? || s.pc.Groups?)
    ensures var s' := Act(cfg, st, id, s, Refer).1;
      && (cfg.followReferrals ==> s'.pc == ReferDial(s.pc.stage, s.pc.Groups?) && s'.answer == s.answer)
      && (!cfg.followReferrals && s.pc.Search? ==> s'.answer == Some(Verdict(Failure(DirectoryReferral))))
      && (!cfg.followReferrals && s.pc.Groups? ==> s'.answer == s.answer && !s'.pc.Release?)
  {
  }

  /** A server behind a referral that cannot be reached, refuses the service bind, fails the search or refers
      further is a failure of the lookup; its connection is closed in each case. */
  lemma ReferralCanFail(cfg: Config, st: State, id: nat, s: Session, f: Fault)
    requires s.conn.Some? && s.referral.Some? && InReferral(s.pc) && !s.pc.ReferClose?
    ensures Act(cfg, st, id, s, LdapSession.Refused(f)).1.pc == ReferClose(s.pc.stage, s.pc.groups, Some(Normalize(cfg, f)))
    ensures Act(cfg, st, id, s, Expired).1.pc == ReferClose(s.pc.stage, s.pc.groups, Some(DirectoryUnavailable))
    ensures s.pc.ReferSearch? ==> Act(cfg, st, id, s, Refer).1.pc == ReferClose(s.pc.stage, s.pc.groups, Some(DirectoryReferral))
    ensures s.pc.ReferBind? ==> Act(cfg, st, id, s, Accepted).1.pc == ReferSearch(s.pc.stage, s.pc.groups)
    ensures forall entries :: s.pc.ReferSearch? ==>
      Act(cfg, st, id, s, Entries(entries)).1.pc == ReferClose(s.pc.stage, s.pc.groups, None)
  {
  }

  /** A failed referral fails the search it belongs to; a group lookup goes on without; a good one leads back. */
  lemma ReferralIsSettled(cfg: Config, st: State, id: nat, s: Session, reply: Reply)
    requires s.conn.Some? && s.referral.Some? && s.pc.ReferClose? && s.job.Verify?
    ensures var (e, s') := Act(cfg, st, id, s, reply);
      && e.change == Close(s.referral.value) && s'.referral == None
      && (s.pc.fault.None? ==> s'.pc == if s.pc.groups then Groups(s.pc.stage) else Search(s.pc.stage))
      && (s.pc.fault.Some? && !s.pc.groups ==> s'.answer == Some(Verdict(Failure(s.pc.fault.value))))
      && (s.pc.groups ==> s'.answer == s.answer)
  {
  }
}
