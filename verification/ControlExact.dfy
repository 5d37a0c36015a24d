// What each operation of the control plane does to every record, spelled out: what it takes away,
// and that everything else is spared.
module ControlExact {
  import opened Common
  import opened Control

  // ---------------------------------------------------------------------------
  // The cascades
  // ---------------------------------------------------------------------------

  // The same records under the same keys, but for the fields a cascade touches.
  predicate SameKeys(s: State, s': State) {
    && s'.tenants == s.tenants && s'.lifetimeDays == s.lifetimeDays
    && s'.principals.Keys == s.principals.Keys && s'.memberships.Keys == s.memberships.Keys
    && s'.delegations.Keys == s.delegations.Keys && s'.bindings.Keys == s.bindings.Keys && s'.tokens.Keys == s.tokens.Keys
  }

  // Disabling a principal suspends all its memberships, every delegation in which it is the agent
  // or the subject, the bindings that name it or such a delegation, and revokes at this moment the
  // live tokens of which it is the actor or the subject. Nothing else changes.
  lemma DisablePrincipalExactly(s: State, p: string, at: Instant)
    requires p in s.principals
    ensures var s' := DisablePrincipal(s, p, at);
            && SameKeys(s, s')
            && s'.principals == s.principals[p := Principal(s.principals[p].kind, false)]
            && (forall k | k in s.memberships ::
                  s'.memberships[k] == Membership(s.memberships[k].roles, s.memberships[k].active && k.1 != p))
            && (forall d | d in s.delegations ::
                  s'.delegations[d] == s.delegations[d].(
                    active := s.delegations[d].active && s.delegations[d].agent != p && s.delegations[d].subject != p))
    ensures var s' := DisablePrincipal(s, p, at);
            forall k | k in s.bindings ::
              var b := s.bindings[k];
              var hit := b.agent == p || b.user == p
                         || (b.delegation in s.delegations
                             && (s.delegations[b.delegation].agent == p || s.delegations[b.delegation].subject == p));
              s'.bindings[k] == b.(active := b.active && !hit)
    ensures var s' := DisablePrincipal(s, p, at);
            forall id | id in s.tokens ::
              var hit := s.tokens[id].session.actor == p || s.tokens[id].session.subject == Some(p);
              s'.tokens[id] == if hit && s.tokens[id].revokedAt.None? then s.tokens[id].(revokedAt := Some(at)) else s.tokens[id]
  {
  }

  // Disabling a membership does the same within one tenant, and spares bindings that only name the
  // principal.
  lemma DisableMembershipExactly(s: State, t: string, p: string, at: Instant)
    requires (t, p) in s.memberships
    ensures var s' := DisableMembership(s, t, p, at);
            && SameKeys(s, s') && s'.principals == s.principals
            && s'.memberships == s.memberships[(t, p) := Membership(s.memberships[(t, p)].roles, false)]
            && (forall d | d in s.delegations ::
                  var del := s.delegations[d];
                  s'.delegations[d] == del.(active := del.active && !(del.tenant == t && (del.agent == p || del.subject == p))))
    ensures var s' := DisableMembership(s, t, p, at);
            forall k | k in s.bindings ::
              var b := s.bindings[k];
              var hit := b.delegation in s.delegations && s.delegations[b.delegation].tenant == t
                         && (s.delegations[b.delegation].agent == p || s.delegations[b.delegation].subject == p);
              s'.bindings[k] == b.(active := b.active && !hit)
    ensures var s' := DisableMembership(s, t, p, at);
            forall id | id in s.tokens ::
              var session := s.tokens[id].session;
              var hit := session.tenant == t && (session.actor == p || session.subject == Some(p));
              s'.tokens[id] == if hit && s.tokens[id].revokedAt.None? then s.tokens[id].(revokedAt := Some(at)) else s.tokens[id]
  {
  }

  // Tokens of which `p` is the actor in tenant `t` are revoked; with `asSubject` also those of which
  // it is the subject.
  ghost predicate RevokedIn(s: State, s': State, t: string, p: string, asSubject: bool, at: Instant) {
    && s'.tokens.Keys == s.tokens.Keys
    && forall id | id in s.tokens ::
         var session := s.tokens[id].session;
         var hit := session.tenant == t && (session.actor == p || (asSubject && session.subject == Some(p)));
         s'.tokens[id] == if hit && s.tokens[id].revokedAt.None? then s.tokens[id].(revokedAt := Some(at)) else s.tokens[id]
  }

  // An update that leaves a membership active touches only it, and revokes the live tokens of its
  // actor in the tenant exactly if it changed something. One that leaves it inactive cascades as
  // disabling it does.
  lemma UpdateMembershipExactly(s: State, t: string, p: string, m: Membership, at: Instant)
    requires (t, p) in s.memberships
    ensures var s' := UpdateMembership(s, t, p, m, at);
            && SameKeys(s, s') && s'.principals == s.principals && s'.memberships == s.memberships[(t, p) := m]
            && (m.active ==>
                  && s'.delegations == s.delegations && s'.bindings == s.bindings
                  && if m == s.memberships[(t, p)] then s'.tokens == s.tokens else RevokedIn(s, s', t, p, false, at))
            && (!m.active ==>
                  && s'.delegations == DisableMembership(s, t, p, at).delegations
                  && s'.bindings == DisableMembership(s, t, p, at).bindings
                  && RevokedIn(s, s', t, p, true, at))
  {
    var s1 := if m.active then s else DisableMembership(s, t, p, at);
    if !m.active {
      DisableMembershipExactly(s, t, p, at);
    } else if m == s.memberships[(t, p)] {
      assert s.memberships[(t, p) := m] == s.memberships;
    }
  }

  // Revoking a role: the last one disables the membership, any other leaves it active with one role
  // less and revokes the live tokens of its actor in the tenant.
  lemma RevokeRoleExactly(s: State, t: string, p: string, role: Role, at: Instant)
    requires (t, p) in s.memberships
    ensures var s', roles := RevokeRole(s, t, p, role, at), s.memberships[(t, p)].roles;
            if forall r | r in roles :: r == role then s' == DisableMembership(s, t, p, at)
            else
              && SameKeys(s, s') && s'.principals == s.principals
              && s'.delegations == s.delegations && s'.bindings == s.bindings
              && s'.memberships == s.memberships[(t, p) := Membership(roles - {role}, s.memberships[(t, p)].active)]
              && RevokedIn(s, s', t, p, false, at)
  {
    var roles := s.memberships[(t, p)].roles;
    if r :| r in roles && r != role { assert r in roles - {role}; }
  }

  // A delegation, the bindings made on it and the tokens issued for it go together, and nothing else.
  lemma RevokeDelegationExactly(s: State, d: string, at: Instant)
    requires d in s.delegations
    ensures var s' := RevokeDelegation(s, d, at);
            && SameKeys(s, s') && s'.principals == s.principals && s'.memberships == s.memberships
            && s'.delegations == s.delegations[d := s.delegations[d].(active := false)]
            && (forall k | k in s.bindings ::
                  s'.bindings[k] == s.bindings[k].(active := s.bindings[k].active && s.bindings[k].delegation != d))
            && (forall id | id in s.tokens ::
                  var hit := s.tokens[id].session.delegation == Some(d);
                  s'.tokens[id] == if hit && s.tokens[id].revokedAt.None? then s.tokens[id].(revokedAt := Some(at)) else s.tokens[id])
  {
  }

  // A principal or a tenant is new and active; making a principal active again touches nothing else,
  // and making it inactive disables it.
  lemma PrincipalExactly(s: State, t: string, p: string, kind: Kind, setActive: Option<bool>, now: Instant)
    ensures var r := Perform(s, CreateTenantOp(t), now);
            (r.Ok? <==> t !in s.tenants) && (r.Ok? ==> r.value == s.(tenants := s.tenants[t := Tenant(true)]))
    ensures var r := Perform(s, CreatePrincipalOp(p, kind), now);
            (r.Ok? <==> p !in s.principals) && (r.Ok? ==> r.value == s.(principals := s.principals[p := Principal(kind, true)]))
    ensures var r := Perform(s, UpdatePrincipalOp(p, setActive), now);
            && (r.Ok? <==> p in s.principals)
            && (r.Ok? ==>
                  var active := if setActive.Some? then setActive.value else s.principals[p].active;
                  r.value == if active then s.(principals := s.principals[p := Principal(s.principals[p].kind, true)])
                             else DisablePrincipal(s, p, now))
  {
  }

  // ---------------------------------------------------------------------------
  // Granting
  // ---------------------------------------------------------------------------

  // A role is granted to an active principal in an active tenant, and to an agent only that of a
  // member. It adds to what the principal has and makes the membership active.
  lemma GrantExactly(s: State, t: string, p: string, role: Role)
    ensures var r := GrantMembership(s, t, p, role);
            r.Ok? <==>
              && role in {"tenant_administrator", "knowledge_curator", "tenant_member"}
              && t in s.tenants && s.tenants[t].active && p in s.principals && s.principals[p].active
              && (s.principals[p].kind == Agent ==> role == "tenant_member")
    ensures var r := GrantMembership(s, t, p, role);
            r.Ok? ==>
              && r.value == s.(memberships := r.value.memberships) && r.value.memberships.Keys == s.memberships.Keys + {(t, p)}
              && (forall k | k in s.memberships && k != (t, p) :: r.value.memberships[k] == s.memberships[k])
              && r.value.memberships[(t, p)].active
              && forall x :: x in r.value.memberships[(t, p)].roles <==>
                               x == role || ((t, p) in s.memberships && x in s.memberships[(t, p)].roles)
  {
  }

  // A change of a membership asks for at least one role, all of them known, for an agent that of a
  // member alone, and to be active an active tenant and an active principal.
  lemma ChangeExactly(s: State, t: string, p: string, setRoles: Option<set<Role>>, setActive: Option<bool>, now: Instant)
    ensures var r := ChangeMembership(s, t, p, setRoles, setActive, now);
            r.Ok? <==>
              && (t, p) in s.memberships && p in s.principals && (setRoles.Some? || setActive.Some?)
              && var roles := if setRoles.Some? then setRoles.value else s.memberships[(t, p)].roles;
                 var active := if setActive.Some? then setActive.value else s.memberships[(t, p)].active;
                 && (exists x :: x in roles)
                 && (forall x | x in roles :: x == "tenant_administrator" || x == "knowledge_curator" || x == "tenant_member")
                 && (s.principals[p].kind == Agent ==> forall x | x in roles :: x == "tenant_member")
                 && (active ==> t in s.tenants && s.tenants[t].active && s.principals[p].active)
    ensures var r := ChangeMembership(s, t, p, setRoles, setActive, now);
            r.Ok? ==> r.value.memberships == s.memberships[(t, p) :=
              Membership(if setRoles.Some? then setRoles.value else s.memberships[(t, p)].roles,
                         if setActive.Some? then setActive.value else s.memberships[(t, p)].active)]
  {
    if (t, p) in s.memberships {
      var roles := if setRoles.Some? then setRoles.value else s.memberships[(t, p)].roles;
      if roles != {} && forall x | x in roles :: x == "tenant_member" { assert roles == {"tenant_member"}; }
      if ChangeMembership(s, t, p, setRoles, setActive, now).Ok? {
        var active := if setActive.Some? then setActive.value else s.memberships[(t, p)].active;
        UpdateMembershipExactly(s, t, p, Membership(roles, active), now);
      }
    }
  }

  // A delegation is made, or made active again, between an active agent and an active user who are
  // both active members of an active tenant.
  lemma DelegationExactly(s: State, d: string, t: string, agent: string, subject: string, now: Instant)
    ensures var r := Perform(s, CreateDelegationOp(d, t, agent, subject), now);
            && (r.Ok? <==> d !in s.delegations && MayDelegate(s, t, agent, subject))
            && (r.Ok? ==> r.value == s.(delegations := s.delegations[d := Delegation(t, agent, subject, true)]))
    ensures var r := Perform(s, UpdateDelegationOp(d, true), now);
            && (r.Ok? <==> d in s.delegations && MayDelegate(s, s.delegations[d].tenant, s.delegations[d].agent, s.delegations[d].subject))
            && (r.Ok? ==> r.value == s.(delegations := s.delegations[d := s.delegations[d].(active := true)]))
    ensures var r := Perform(s, UpdateDelegationOp(d, false), now);
            (r.Ok? <==> d in s.delegations) && (r.Ok? ==> r.value == RevokeDelegation(s, d, now))
  {
  }

  predicate MayDelegate(s: State, t: string, agent: string, subject: string) {
    && t in s.tenants && s.tenants[t].active
    && agent in s.principals && s.principals[agent] == Principal(Agent, true)
    && subject in s.principals && s.principals[subject] == Principal(User, true)
    && (t, agent) in s.memberships && s.memberships[(t, agent)].active
    && (t, subject) in s.memberships && s.memberships[(t, subject)].active
  }

  // A channel is bound on an active delegation, for a telegram id of digits that is not bound yet.
  lemma BindingExactly(s: State, channel: string, external: string, d: string, now: Instant)
    ensures var r := Perform(s, CreateBindingOp(channel, external, d), now);
            && (r.Ok? <==>
                  && channel == "telegram" && |external| > 0 && (forall i | 0 <= i < |external| :: '0' <= external[i] <= '9')
                  && d in s.delegations && s.delegations[d].active && (channel, external) !in s.bindings)
            && (r.Ok? ==>
                  var del := s.delegations[d];
                  r.value == s.(bindings := s.bindings[(channel, external) := Binding(del.tenant, del.subject, del.agent, d, true)]))
    ensures var r := Perform(s, DisableBindingOp(channel, external), now);
            && (r.Ok? <==> (channel, external) in s.bindings)
            && (r.Ok? ==> r.value == s.(bindings :=
                  s.bindings[(channel, external) := s.bindings[(channel, external)].(active := false)]))
    ensures Perform(s, RemoveBindingOp(channel, external), now) == Ok(s.(bindings := s.bindings - {(channel, external)}))
  {
    if i :| 0 <= i < |external| && !('0' <= external[i] <= '9') {
      assert external[i] in external;
    } else {
      forall ch | ch in external ensures '0' <= ch <= '9' {
        var i :| 0 <= i < |external| && external[i] == ch;
      }
    }
  }

  // ---------------------------------------------------------------------------
  // Tokens
  // ---------------------------------------------------------------------------

  // The longest life of a token, in microseconds: the days configured for its tenant and kind, and
  // unless some are, 90 days for a user or under a delegation and 30 for an agent.
  function Longest(s: State, t: string, kind: Kind, delegated: bool): int {
    86_400_000_000 * if (t, kind, delegated) in s.lifetimeDays && s.lifetimeDays[(t, kind, delegated)] != 0
                     then s.lifetimeDays[(t, kind, delegated)]
                     else if kind == User || delegated then 90 else 30
  }

  predicate FitsLife(lifetime: Option<int>, longest: int) {
    if lifetime.Some? then 0 < lifetime.value <= longest else 0 < longest
  }

  function Life(lifetime: Option<int>, longest: int): int {
    if lifetime.Some? then lifetime.value else longest
  }

  // A token is issued to an active member for the life asked for, or the longest, from now on, and
  // carries the roles of the membership.
  lemma IssueExactly(s: State, id: string, verifier: string, t: string, p: string, lifetime: Option<int>, now: Instant)
    ensures var r := IssueToken(s, id, verifier, t, p, lifetime, now);
            r.Ok? <==>
              && id !in s.tokens && t in s.tenants && s.tenants[t].active && p in s.principals && s.principals[p].active
              && (t, p) in s.memberships && s.memberships[(t, p)].active
              && FitsLife(lifetime, Longest(s, t, s.principals[p].kind, false))
    ensures var r := IssueToken(s, id, verifier, t, p, lifetime, now);
            r.Ok? ==>
              var kind := s.principals[p].kind;
              r.value == s.(tokens := s.tokens[id :=
                Token(verifier, Session(t, p, kind, s.memberships[(t, p)].roles, None, None),
                      now + Life(lifetime, Longest(s, t, kind, false)), now, None, None)])
  {
  }

  // A delegated token acts for the delegation's agent on behalf of its subject.
  lemma IssueDelegatedExactly(s: State, id: string, verifier: string, d: string, lifetime: Option<int>, now: Instant)
    ensures var r := IssueDelegated(s, id, verifier, d, lifetime, now);
            r.Ok? <==>
              && id !in s.tokens && d in s.delegations && s.delegations[d].active
              && var del := s.delegations[d];
                 && (del.tenant, del.agent) in s.memberships && s.memberships[(del.tenant, del.agent)].active
                 && FitsLife(lifetime, Longest(s, del.tenant, Agent, true))
    ensures var r := IssueDelegated(s, id, verifier, d, lifetime, now);
            r.Ok? ==>
              var del := s.delegations[d];
              r.value == s.(tokens := s.tokens[id :=
                Token(verifier, Session(del.tenant, del.agent, Agent, s.memberships[(del.tenant, del.agent)].roles, Some(del.subject), Some(d)),
                      now + Life(lifetime, Longest(s, del.tenant, Agent, true)), now, None, None)])
  {
  }

  // Rotation asks for a live, unexpired token and an overlap of at most a day. The replacement is the
  // same actor's, with the roles and kind of today, and lives for the life asked for, or the longest.
  lemma RotateExactly(s: State, id: string, newId: string, verifier: string, overlap: int, lifetime: Option<int>, now: Instant)
    requires Inv(s) && id in s.tokens
    ensures var r := RotateToken(s, id, newId, verifier, overlap, lifetime, now);
            var token := s.tokens[id];
            r.Ok? <==>
              && 0 < overlap <= 86_400_000_000 && newId !in s.tokens && token.revokedAt.None? && now < token.expiresAt
              && FitsLife(lifetime, Longest(s, token.session.tenant, token.session.kind, token.session.delegation.Some?))
    ensures var r := RotateToken(s, id, newId, verifier, overlap, lifetime, now);
            var token := s.tokens[id];
            r.Ok? ==>
              var session := token.session;
              && (session.tenant, session.actor) in s.memberships
              && r.value.tokens == s.tokens[id := token.(expiresAt := if now + overlap < token.expiresAt then now + overlap else token.expiresAt)]
                   [newId := Token(verifier, session.(roles := s.memberships[(session.tenant, session.actor)].roles),
                                   now + Life(lifetime, Longest(s, session.tenant, session.kind, session.delegation.Some?)), now, None, None)]
              && r.value == s.(tokens := r.value.tokens)
  {
    if s.tokens[id].revokedAt.None? {
      var session := s.tokens[id].session;
      assert SessionBacked(s, session);
      if session.delegation.Some? { assert DelegationBacked(s, s.delegations[session.delegation.value]); }
    }
  }

  // A session is authorized again with the roles of today exactly if tenant, actor and membership are
  // active and, for delegated work, the delegation is the session's and its subject an active user and
  // member.
  lemma ReauthorizeExactly(s: State, session: Session)
    ensures var r := Reauthorize(s, session);
            r.Ok? <==>
              && session.tenant in s.tenants && s.tenants[session.tenant].active
              && session.actor in s.principals && s.principals[session.actor] == Principal(session.kind, true)
              && (session.tenant, session.actor) in s.memberships && s.memberships[(session.tenant, session.actor)].active
              && (session.delegation.Some? ==>
                    && session.delegation.value in s.delegations && session.subject.Some?
                    && s.delegations[session.delegation.value] == Delegation(session.tenant, session.actor, session.subject.value, true)
                    && session.subject.value in s.principals && s.principals[session.subject.value] == Principal(User, true)
                    && (session.tenant, session.subject.value) in s.memberships
                    && s.memberships[(session.tenant, session.subject.value)].active)
    ensures var r := Reauthorize(s, session);
            r.Ok? ==> r.value == session.(roles := s.memberships[(session.tenant, session.actor)].roles)
  {
  }

  // A channel resolves to its binding's agent, acting for its user under its delegation.
  lemma ResolveExactly(s: State, channel: string, external: string)
    ensures var r := ResolveChannel(s, channel, external);
            r.Ok? ==>
              && (channel, external) in s.bindings
              && var b := s.bindings[(channel, external)];
                 (b.tenant, b.agent) in s.memberships
                 && r.value == Session(b.tenant, b.agent, Agent, s.memberships[(b.tenant, b.agent)].roles, Some(b.user), Some(b.delegation))
  {
  }

  // Authentication returns the session of the token, and notes when it was used.
  lemma AuthenticateNotes(s: State, id: string, verifier: string, now: Instant)
    ensures var r := Authenticate(s, id, verifier, now);
            r.Ok? ==> id in s.tokens && r.value.1 == s.tokens[id].session
                      && r.value.0 == s.(tokens := s.tokens[id := s.tokens[id].(lastUsedAt := Some(now))])
    ensures var r := Perform(s, RevokeTokenOp(id), now);
            && (r.Ok? <==> id in s.tokens)
            && (r.Ok? && s.tokens[id].revokedAt.None? ==> r.value == s.(tokens := s.tokens[id := s.tokens[id].(revokedAt := Some(now))]))
            && (r.Ok? && s.tokens[id].revokedAt.Some? ==> r.value == s)
  {
    if id in s.tokens { assert s.tokens[id := s.tokens[id]] == s.tokens; }
  }
}
