// Control-plane calls that overlap. A call reads and checks, then makes one write, which the store
// does in one transaction; what it read may have changed by then.
module ControlRace {
  import opened Common
  import opened Control

  type Caller = int

  // The write of a call whose checks have passed.
  datatype Write =
    | PutPrincipal(p: string, active: bool)
    | PutMembership(t: string, p: string, roles: set<Role>)
    | ReplaceMembership(t: string, p: string, m: Membership)
    | PutDelegation(d: string, delegation: Delegation)
    | ActivateDelegation(d: string)
    | PutBinding(channel: string, external: string, binding: Binding)
    | PutToken(id: string, token: Token)
    | PutRotated(id: string, newId: string, token: Token, until: Instant, at: Instant)

  datatype World = World(s: State, pending: map<Caller, Write>)

  // ---------------------------------------------------------------------------
  // The reads and the checks
  // ---------------------------------------------------------------------------

  // The operations that read and check before they write.
  predicate InTwoSteps(op: Op) {
    || op.UpdatePrincipalOp? || op.GrantMembershipOp? || op.UpdateMembershipOp? || op.CreateDelegationOp?
    || (op.UpdateDelegationOp? && op.active) || op.CreateBindingOp? || op.IssueTokenOp? || op.IssueDelegatedOp?
    || op.RotateTokenOp?
  }

  function PlanPrincipal(s: State, p: string, setActive: Option<bool>): Option<Write> {
    if p !in s.principals then None
    else Some(PutPrincipal(p, if setActive.None? then s.principals[p].active else setActive.value))
  }

  // Granting writes the roles it read and one more.
  function PlanGrant(s: State, t: string, p: string, role: Role): Option<Write> {
    if GrantMembership(s, t, p, role).Err? then None
    else Some(PutMembership(t, p, if (t, p) in s.memberships then s.memberships[(t, p)].roles + {role} else {role}))
  }

  function PlanChange(s: State, t: string, p: string, setRoles: Option<set<Role>>, setActive: Option<bool>,
          now: Instant): Option<Write> {
    if ChangeMembership(s, t, p, setRoles, setActive, now).Err? then None
    else
      var current := s.memberships[(t, p)];
      Some(ReplaceMembership(t, p, Membership(if setRoles.None? then current.roles else setRoles.value,
                                              if setActive.None? then current.active else setActive.value)))
  }

  function PlanIssue(s: State, id: string, verifier: string, t: string, p: string, lifetime: Option<int>,
          now: Instant): Option<Write> {
    if !ActiveTenant(s, t) || !ActivePrincipal(s, p) || !ActiveMember(s, t, p) then None
    else
      var kind := s.principals[p].kind;
      var maximum := MaximumLifetime(s, t, kind, false, PlatformDays(kind));
      var requested := if lifetime.None? then maximum else lifetime.value;
      if !LifetimeAllowed(requested, maximum) then None
      else Some(PutToken(id, NewToken(verifier, Session(t, p, kind, s.memberships[(t, p)].roles, None, None), requested, now)))
  }

  function PlanDelegated(s: State, id: string, verifier: string, d: string, lifetime: Option<int>,
          now: Instant): Option<Write> {
    if !ActiveDelegation(s, d) then None
    else
      var del := s.delegations[d];
      var maximum := MaximumLifetime(s, del.tenant, Agent, true, 90);
      var requested := if lifetime.None? then maximum else lifetime.value;
      if !LifetimeAllowed(requested, maximum) || !ActiveMember(s, del.tenant, del.agent) then None
      else Some(PutToken(id, NewToken(verifier,
             Session(del.tenant, del.agent, Agent, s.memberships[(del.tenant, del.agent)].roles, Some(del.subject), Some(d)),
             requested, now)))
  }

  function PlanRotation(s: State, id: string, newId: string, verifier: string, overlap: int, lifetime: Option<int>,
          now: Instant): Option<Write> {
    if newId in s.tokens || RotateToken(s, id, newId, verifier, overlap, lifetime, now).Err? then None
    else
      var previous := s.tokens[id];
      Some(PutRotated(id, newId, RotateToken(s, id, newId, verifier, overlap, lifetime, now).value.tokens[newId],
                      now + Min(overlap, previous.expiresAt - now), now))
  }

  function Plan(s: State, op: Op, now: Instant): Option<Write> {
    match op
    case UpdatePrincipalOp(p, setActive) => PlanPrincipal(s, p, setActive)
    case GrantMembershipOp(t, p, role) => PlanGrant(s, t, p, role)
    case UpdateMembershipOp(t, p, setRoles, setActive) => PlanChange(s, t, p, setRoles, setActive, now)
    case CreateDelegationOp(d, t, agent, subject) =>
      if DelegationPermitted(s, t, agent, subject) then Some(PutDelegation(d, Delegation(t, agent, subject, true))) else None
    case UpdateDelegationOp(d, active) =>
      if active && d in s.delegations
         && DelegationPermitted(s, s.delegations[d].tenant, s.delegations[d].agent, s.delegations[d].subject)
      then Some(ActivateDelegation(d)) else None
    case CreateBindingOp(channel, external, d) =>
      if channel != "telegram" || external == "" || (exists ch | ch in external :: !('0' <= ch <= '9')) || !ActiveDelegation(s, d) then None
      else Some(PutBinding(channel, external,
             Binding(s.delegations[d].tenant, s.delegations[d].subject, s.delegations[d].agent, d, true)))
    case IssueTokenOp(id, verifier, t, p, lifetime) => PlanIssue(s, id, verifier, t, p, lifetime, now)
    case IssueDelegatedOp(id, verifier, d, lifetime) => PlanDelegated(s, id, verifier, d, lifetime, now)
    case RotateTokenOp(id, newId, verifier, overlap, lifetime) => PlanRotation(s, id, newId, verifier, overlap, lifetime, now)
    case _ => None
  }

  // ---------------------------------------------------------------------------
  // The writes
  // ---------------------------------------------------------------------------

  // The store looks at the previous token, and at those who stand behind it, once more.
  predicate MayRotate(s: State, w: Write)
    requires w.PutRotated?
  {
    && w.id in s.tokens && s.tokens[w.id].revokedAt.None? && s.tokens[w.id].expiresAt > w.at && w.newId !in s.tokens
    && var session, new' := s.tokens[w.id].session, w.token.session;
       && session.tenant == new'.tenant && session.actor == new'.actor && session.subject == new'.subject
       && session.delegation == new'.delegation
       && ActiveTenant(s, new'.tenant) && ActivePrincipal(s, new'.actor) && ActiveMember(s, new'.tenant, new'.actor)
       && (new'.delegation.Some? ==>
             && ActiveDelegation(s, new'.delegation.value)
             && var d := s.delegations[new'.delegation.value];
                && d.tenant == new'.tenant && d.agent == new'.actor && Some(d.subject) == new'.subject
                && ActivePrincipal(s, d.subject) && ActiveMember(s, new'.tenant, d.subject))
  }

  function Made(s: State, w: Write, now: Instant): State {
    match w
    case PutPrincipal(p, active) => if p in s.principals then UpdatePrincipal(s, p, active, now) else s
    case PutMembership(t, p, roles) => s.(memberships := s.memberships[(t, p) := Membership(roles, true)])
    case ReplaceMembership(t, p, m) => if (t, p) in s.memberships then UpdateMembership(s, t, p, m, now) else s
    case PutDelegation(d, delegation) => if d in s.delegations then s else s.(delegations := s.delegations[d := delegation])
    case ActivateDelegation(d) =>
      if d in s.delegations then s.(delegations := s.delegations[d := s.delegations[d].(active := true)]) else s
    case PutBinding(channel, external, binding) =>
      if (channel, external) in s.bindings then s else s.(bindings := s.bindings[(channel, external) := binding])
    case PutToken(id, token) => if id in s.tokens then s else s.(tokens := s.tokens[id := token])
    case PutRotated(id, newId, token, until, _) =>
      if !MayRotate(s, w) then s
      else
        var previous := s.tokens[id];
        s.(tokens := s.tokens[id := previous.(expiresAt := Min(previous.expiresAt, until))][newId := token])
  }

  datatype Step =
    | BeginStep(c: Caller, op: Op, now: Instant)
    | WriteStep(c: Caller, now: Instant)
    | CrashStep(c: Caller)

  function After(s: State, op: Op, now: Instant): State {
    match Perform(s, op, now) case Ok(s') => s' case Err(_) => s
  }

  function Apply(w: World, st: Step): World {
    match st
    case BeginStep(c, op, now) =>
      if c in w.pending then w
      else if !InTwoSteps(op) then w.(s := After(w.s, op, now))
      else if Plan(w.s, op, now).None? then w
      else w.(pending := w.pending[c := Plan(w.s, op, now).value])
    case WriteStep(c, now) =>
      if c in w.pending then World(Made(w.s, w.pending[c], now), w.pending - {c}) else w
    case CrashStep(c) => w.(pending := w.pending - {c})
  }

  function Run(w: World, steps: seq<Step>): World
    decreases |steps|
  {
    if steps == [] then w else Run(Apply(w, steps[0]), steps[1..])
  }

  // ---------------------------------------------------------------------------
  // Which writes keep the identity graph sound
  // ---------------------------------------------------------------------------

  // What a write takes for granted still holds when it is made: those behind what it activates are
  // active, a token's session is within its membership, and no live token has a role that the roles
  // written leave out.
  ghost predicate StillBacked(s: State, w: Write) {
    match w
    case PutPrincipal(_, _) => true
    case PutMembership(t, p, roles) =>
      && ActiveTenant(s, t) && ActivePrincipal(s, p)
      && forall id | id in s.tokens && s.tokens[id].revokedAt.None? && Matches(OfActor(t, p), s.tokens[id].session) ::
           s.tokens[id].session.roles <= roles
    case ReplaceMembership(t, p, m) => (t, p) in s.memberships && m.active ==> ActiveTenant(s, t) && ActivePrincipal(s, p)
    case PutDelegation(d, delegation) => d !in s.delegations ==> DelegationBacked(s, delegation)
    case ActivateDelegation(d) => d in s.delegations ==> DelegationBacked(s, s.delegations[d])
    case PutBinding(channel, external, binding) => (channel, external) !in s.bindings ==> BindingBacked(s, binding)
    case PutToken(id, token) => id !in s.tokens ==> SessionBacked(s, token.session)
    case PutRotated(_, _, token, _, _) => MayRotate(s, w) ==> SessionBacked(s, token.session)
  }

  // What every planned write is.
  predicate WellFormed(w: Write) {
    match w
    case PutDelegation(_, delegation) => delegation.active
    case PutBinding(_, _, binding) => binding.active
    case PutToken(_, token) => token.revokedAt.None?
    case PutRotated(id, newId, token, _, _) => token.revokedAt.None? && id != newId
    case _ => true
  }

  lemma PlansAreWellFormed(s: State, op: Op, now: Instant)
    ensures Plan(s, op, now).Some? ==> WellFormed(Plan(s, op, now).value)
  {
  }

  lemma PrincipalExactly(s: State, p: string, active: bool, now: Instant)
    requires Inv(s)
    ensures Inv(Made(s, PutPrincipal(p, active), now))
  {
    if p in s.principals && !active { DisablePrincipalKeeps(s, p, now); }
  }

  lemma GrantExactly(s: State, t: string, p: string, roles: set<Role>, now: Instant)
    requires Inv(s)
    ensures Inv(Made(s, PutMembership(t, p, roles), now)) <==> StillBacked(s, PutMembership(t, p, roles))
  {
    var s' := Made(s, PutMembership(t, p, roles), now);
    if !(ActiveTenant(s, t) && ActivePrincipal(s, p)) {
      assert s'.memberships[(t, p)].active;
      assert !MembershipsBacked(s');
    } else if !StillBacked(s, PutMembership(t, p, roles)) {
      var id :| id in s.tokens && s.tokens[id].revokedAt.None? && Matches(OfActor(t, p), s.tokens[id].session)
                && !(s.tokens[id].session.roles <= roles);
      assert !SessionBacked(s', s'.tokens[id].session);
    }
  }

  lemma ReplaceExactly(s: State, t: string, p: string, m: Membership, now: Instant)
    requires Inv(s)
    ensures Inv(Made(s, ReplaceMembership(t, p, m), now)) <==> StillBacked(s, ReplaceMembership(t, p, m))
  {
    if (t, p) in s.memberships {
      if m.active ==> ActiveTenant(s, t) && ActivePrincipal(s, p) {
        UpdateMembershipKeeps(s, t, p, m, now);
      } else {
        assert Made(s, ReplaceMembership(t, p, m), now).memberships[(t, p)] == m;
      }
    }
  }

  // Writing one delegation that no binding and no token relies on less than before.
  lemma DelegationWritten(s: State, d: string, delegation: Delegation)
    requires Inv(s) && delegation.active
    requires d in s.delegations ==> delegation == s.delegations[d].(active := true)
    ensures Inv(s.(delegations := s.delegations[d := delegation])) <==> DelegationBacked(s, delegation)
  {
    var s' := s.(delegations := s.delegations[d := delegation]);
    assert MembershipsBacked(s');
    forall e | e in s.delegations && s.delegations[e].active ensures DelegationBacked(s', s.delegations[e]) {
      assert DelegationBacked(s, s.delegations[e]);
    }
    forall k | k in s'.bindings && s'.bindings[k].active ensures BindingBacked(s', s'.bindings[k]) {
      assert BindingBacked(s, s.bindings[k]);
    }
    forall id | id in s'.tokens && s'.tokens[id].revokedAt.None? ensures SessionBacked(s', s'.tokens[id].session) {
      assert SessionBacked(s, s.tokens[id].session);
    }
    assert DelegationBacked(s', delegation) <==> DelegationBacked(s, delegation);
    assert s'.delegations[d] == delegation;
  }

  lemma DelegationExactly(s: State, w: Write, now: Instant)
    requires Inv(s) && (w.PutDelegation? || w.ActivateDelegation?) && WellFormed(w)
    ensures Inv(Made(s, w, now)) <==> StillBacked(s, w)
  {
    if w.PutDelegation? && w.d !in s.delegations {
      DelegationWritten(s, w.d, w.delegation);
    } else if w.ActivateDelegation? && w.d in s.delegations {
      DelegationWritten(s, w.d, s.delegations[w.d].(active := true));
    }
  }

  lemma BindingExactly(s: State, channel: string, external: string, binding: Binding, now: Instant)
    requires Inv(s) && binding.active
    ensures Inv(Made(s, PutBinding(channel, external, binding), now)) <==> StillBacked(s, PutBinding(channel, external, binding))
  {
    var s' := Made(s, PutBinding(channel, external, binding), now);
    if (channel, external) !in s.bindings {
      assert s'.bindings[(channel, external)] == binding;
      assert BindingBacked(s', binding) <==> BindingBacked(s, binding);
    }
  }

  lemma TokenWritten(s: State, id: string, token: Token)
    requires Inv(s) && id !in s.tokens && token.revokedAt.None?
    ensures Inv(s.(tokens := s.tokens[id := token])) <==> SessionBacked(s, token.session)
  {
    var s' := s.(tokens := s.tokens[id := token]);
    assert s'.tokens[id] == token;
    assert SessionBacked(s', token.session) <==> SessionBacked(s, token.session);
    forall i | i in s.tokens && s.tokens[i].revokedAt.None? ensures SessionBacked(s', s'.tokens[i].session) {
      assert SessionBacked(s, s.tokens[i].session);
    }
  }

  lemma ShortenedKeeps(s: State, id: string, until: Instant)
    requires Inv(s) && id in s.tokens
    ensures Inv(s.(tokens := s.tokens[id := s.tokens[id].(expiresAt := until)]))
  {
    var s' := s.(tokens := s.tokens[id := s.tokens[id].(expiresAt := until)]);
    forall i | i in s'.tokens && s'.tokens[i].revokedAt.None? ensures SessionBacked(s', s'.tokens[i].session) {
      assert SessionBacked(s, s.tokens[i].session);
    }
  }

  lemma TokenExactly(s: State, w: Write, now: Instant)
    requires Inv(s) && (w.PutToken? || w.PutRotated?) && WellFormed(w)
    ensures Inv(Made(s, w, now)) <==> StillBacked(s, w)
  {
    if w.PutToken? && w.id !in s.tokens {
      TokenWritten(s, w.id, w.token);
    } else if w.PutRotated? && MayRotate(s, w) {
      var until := Min(s.tokens[w.id].expiresAt, w.until);
      ShortenedKeeps(s, w.id, until);
      TokenWritten(s.(tokens := s.tokens[w.id := s.tokens[w.id].(expiresAt := until)]), w.newId, w.token);
    }
  }

  lemma WriteExactly(s: State, w: Write, now: Instant)
    requires Inv(s) && WellFormed(w)
    ensures Inv(Made(s, w, now)) <==> StillBacked(s, w)
  {
    match w
    case PutPrincipal(p, active) => PrincipalExactly(s, p, active, now);
    case PutMembership(t, p, roles) => GrantExactly(s, t, p, roles, now);
    case ReplaceMembership(t, p, m) => ReplaceExactly(s, t, p, m, now);
    case PutDelegation(_, _) => DelegationExactly(s, w, now);
    case ActivateDelegation(_) => DelegationExactly(s, w, now);
    case PutBinding(channel, external, binding) => BindingExactly(s, channel, external, binding, now);
    case PutToken(_, _) => TokenExactly(s, w, now);
    case PutRotated(_, _, _, _, _) => TokenExactly(s, w, now);
  }

  // ---------------------------------------------------------------------------
  // Runs
  // ---------------------------------------------------------------------------

  ghost predicate StaleWrite(w: World, st: Step) {
    st.WriteStep? && st.c in w.pending && !StillBacked(w.s, w.pending[st.c])
  }

  ghost predicate NoStaleWrite(w: World, steps: seq<Step>)
    decreases |steps|
  {
    steps == [] || (!StaleWrite(w, steps[0]) && NoStaleWrite(Apply(w, steps[0]), steps[1..]))
  }

  ghost predicate AlwaysSound(w: World, steps: seq<Step>)
    decreases |steps|
  {
    Inv(w.s) && (steps == [] || AlwaysSound(Apply(w, steps[0]), steps[1..]))
  }

  predicate PendingFits(w: World) {
    forall c | c in w.pending :: WellFormed(w.pending[c])
  }

  lemma StepExactly(w: World, st: Step)
    requires Inv(w.s) && PendingFits(w)
    ensures PendingFits(Apply(w, st))
    ensures Inv(Apply(w, st).s) <==> !StaleWrite(w, st)
  {
    match st
    case BeginStep(c, op, now) =>
      PerformKeeps(w.s, op, now);
      PlansAreWellFormed(w.s, op, now);
    case WriteStep(c, now) => if c in w.pending { WriteExactly(w.s, w.pending[c], now); }
    case CrashStep(_) =>
  }

  lemma {:induction false} RunExactly(w: World, steps: seq<Step>)
    requires Inv(w.s) && PendingFits(w)
    ensures AlwaysSound(w, steps) <==> NoStaleWrite(w, steps)
    decreases |steps|
  {
    if steps != [] {
      StepExactly(w, steps[0]);
      if !StaleWrite(w, steps[0]) { RunExactly(Apply(w, steps[0]), steps[1..]); }
    }
  }

  // With calls interleaved between their checks and their writes: no unrevoked token, active
  // delegation, binding or membership ever outlives its authority exactly if every write still
  // finds what its call took for granted.
  lemma NoStaleAuthorityExactly(steps: seq<Step>)
    ensures AlwaysSound(World(EMPTY, map[]), steps) <==> NoStaleWrite(World(EMPTY, map[]), steps)
  {
    RunExactly(World(EMPTY, map[]), steps);
  }

  lemma {:induction false} SoundToTheEnd(w: World, steps: seq<Step>)
    requires AlwaysSound(w, steps)
    ensures Inv(Run(w, steps).s)
    decreases |steps|
  {
    if steps != [] { SoundToTheEnd(Apply(w, steps[0]), steps[1..]); }
  }

  // In such a run an unrevoked token is always readable, and its session rehydrates with at least
  // its roles.
  lemma LiveTokensAreCurrent(steps: seq<Step>, id: string)
    requires NoStaleWrite(World(EMPTY, map[]), steps)
    requires var s := Run(World(EMPTY, map[]), steps).s; id in s.tokens && s.tokens[id].revokedAt.None?
    ensures var s := Run(World(EMPTY, map[]), steps).s;
            var session := s.tokens[id].session;
            && GetToken(s, id) == Some(s.tokens[id])
            && Reauthorize(s, session).Ok? && session.roles <= Reauthorize(s, session).value.roles
  {
    NoStaleAuthorityExactly(steps);
    SoundToTheEnd(World(EMPTY, map[]), steps);
  }

  // A call that nobody disturbs does what the one-step operation of module Control does.
  lemma AloneIsGuarded(w: World, c: Caller, op: Op, now: Instant)
    requires c !in w.pending && InTwoSteps(op) && Inv(w.s)
    ensures Run(w, [BeginStep(c, op, now), WriteStep(c, now)]) == w.(s := After(w.s, op, now))
  {
    RunTwo(w, BeginStep(c, op, now), WriteStep(c, now));
    var w1 := Apply(w, BeginStep(c, op, now));
    if c in w1.pending { assert w1.pending - {c} == w.pending; }
    PlanIsPerformed(w.s, op, now);
  }

  lemma RotationIsPerformed(s: State, id: string, newId: string, verifier: string, overlap: int, lifetime: Option<int>,
          now: Instant)
    requires Inv(s)
    ensures var op := RotateTokenOp(id, newId, verifier, overlap, lifetime);
            After(s, op, now) == match PlanRotation(s, id, newId, verifier, overlap, lifetime, now)
                                 case None => s case Some(w) => Made(s, w, now)
  {
    var r := RotateToken(s, id, newId, verifier, overlap, lifetime, now);
    if r.Ok? {
      var previous := s.tokens[id];
      assert SessionBacked(s, previous.session);
      if previous.session.delegation.Some? { assert DelegationBacked(s, s.delegations[previous.session.delegation.value]); }
    }
  }

  lemma MembershipIsPerformed(s: State, op: Op, now: Instant)
    requires op.GrantMembershipOp? || op.UpdateMembershipOp? || op.UpdatePrincipalOp?
    ensures After(s, op, now) == match Plan(s, op, now) case None => s case Some(w) => Made(s, w, now)
  {
  }

  lemma IssueIsPerformed(s: State, op: Op, now: Instant)
    requires op.IssueTokenOp? || op.IssueDelegatedOp?
    ensures After(s, op, now) == match Plan(s, op, now) case None => s case Some(w) => Made(s, w, now)
  {
  }

  lemma PlanIsPerformed(s: State, op: Op, now: Instant)
    requires InTwoSteps(op) && Inv(s)
    ensures After(s, op, now) == match Plan(s, op, now) case None => s case Some(w) => Made(s, w, now)
  {
    match op
    case RotateTokenOp(id, newId, verifier, overlap, lifetime) =>
      RotationIsPerformed(s, id, newId, verifier, overlap, lifetime, now);
    case GrantMembershipOp(_, _, _) => MembershipIsPerformed(s, op, now);
    case UpdateMembershipOp(_, _, _, _) => MembershipIsPerformed(s, op, now);
    case UpdatePrincipalOp(_, _) => MembershipIsPerformed(s, op, now);
    case IssueTokenOp(_, _, _, _, _) => IssueIsPerformed(s, op, now);
    case IssueDelegatedOp(_, _, _, _) => IssueIsPerformed(s, op, now);
    case _ =>
  }

  lemma RunTwo(w: World, a: Step, b: Step)
    ensures Run(w, [a, b]) == Apply(Apply(w, a), b)
  {
    assert [a, b][1..] == [b] && [b][1..] == [];
    assert Run(Apply(w, a), [b]) == Apply(Apply(w, a), b);
  }

  // ---------------------------------------------------------------------------
  // A token saved after a demotion
  // ---------------------------------------------------------------------------

  const CURATOR: Role := "knowledge_curator"

  const ONE_MEMBER := State(map["t" := Tenant(true)], map["u" := Principal(User, true)],
                            map[("t", "u") := Membership({CURATOR, MEMBER_ROLE}, true)], map[], map[], map[], map[])

  const STALE_CALLS := [BeginStep(1, IssueTokenOp("k", "secret", "t", "u", None), 0), BeginStep(2, RevokeRoleOp("t", "u", CURATOR), 1)]

  lemma MemberIsSound()
    ensures Inv(ONE_MEMBER)
  {
  }

  // The token carries a role that its owner lost before it was saved.
  lemma StaleTokenIsSaved()
    ensures Inv(ONE_MEMBER)
    ensures var s := Apply(Run(World(ONE_MEMBER, map[]), STALE_CALLS), WriteStep(1, 2)).s;
            && "k" in s.tokens && s.tokens["k"].revokedAt.None? && CURATOR in s.tokens["k"].session.roles
            && ("t", "u") in s.memberships && s.memberships[("t", "u")] == Membership({MEMBER_ROLE}, true)
  {
    var w := World(ONE_MEMBER, map[]);
    RunTwo(w, STALE_CALLS[0], STALE_CALLS[1]);
    var token := NewToken("secret", Session("t", "u", User, {CURATOR, MEMBER_ROLE}, None, None), 90 * DAY, 0);
    var w1 := Apply(w, STALE_CALLS[0]);
    assert w1 == World(ONE_MEMBER, map[1 := PutToken("k", token)]);
    var w2 := Apply(w1, STALE_CALLS[1]);
    assert {CURATOR, MEMBER_ROLE} - {CURATOR} == {MEMBER_ROLE};
    assert w2.s.memberships == map[("t", "u") := Membership({MEMBER_ROLE}, true)] && w2.s.tokens == map[];
  }
}
