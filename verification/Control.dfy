// The identity graph of the control plane: tenants, principals, memberships, delegations,
// channel bindings and access tokens. Revocation is eager: every change that takes authority
// away cascades at once, so the checks made when a token is read never find a stale one.
//
// A record is stored without the fields that repeat its dictionary key.
module Control {
  import opened Common

  type Instant = int
  type Role = string

  const DAY: int := 86_400_000_000   // microseconds
  const VALID_ROLES: set<Role> := {"tenant_administrator", "knowledge_curator", "tenant_member"}
  const MEMBER_ROLE: Role := "tenant_member"

  datatype Kind = User | Agent

  datatype Tenant = Tenant(active: bool)

  datatype Principal = Principal(kind: Kind, active: bool)

  datatype Membership = Membership(roles: set<Role>, active: bool)

  datatype Delegation = Delegation(tenant: string, agent: string, subject: string, active: bool)

  datatype Binding = Binding(tenant: string, user: string, agent: string, delegation: string, active: bool)

  datatype Session = Session(
    tenant: string,
    actor: string,
    kind: Kind,
    roles: set<Role>,
    subject: Option<string>,
    delegation: Option<string>)

  datatype Token = Token(
    verifier: string,
    session: Session,
    expiresAt: Instant,
    issuedAt: Instant,
    revokedAt: Option<Instant>,
    lastUsedAt: Option<Instant>)

  datatype State = State(
    tenants: map<string, Tenant>,
    principals: map<string, Principal>,
    memberships: map<(string, string), Membership>,
    delegations: map<string, Delegation>,
    bindings: map<(string, string), Binding>,
    tokens: map<string, Token>,
    lifetimeDays: map<(string, Kind, bool), int>)

  datatype Error = NotFound | Conflict | Invalid | Denied

  const EMPTY := State(map[], map[], map[], map[], map[], map[], map[])

  // ---------------------------------------------------------------------------
  // The cascades of the store
  // ---------------------------------------------------------------------------

  // Which tokens a change revokes.
  datatype Match =
    | OfPrincipal(p: string)               // actor or subject, in every tenant
    | OfMember(t: string, p: string)       // actor or subject, in one tenant
    | OfActor(t: string, p: string)        // actor only, in one tenant
    | OfDelegation(d: string)

  predicate Matches(m: Match, session: Session) {
    match m
    case OfPrincipal(p) => session.actor == p || session.subject == Some(p)
    case OfMember(t, p) => session.tenant == t && (session.actor == p || session.subject == Some(p))
    case OfActor(t, p) => session.tenant == t && session.actor == p
    case OfDelegation(d) => session.delegation == Some(d)
  }

  function RevokeToken(token: Token, at: Instant): Token {
    if token.revokedAt.None? then token.(revokedAt := Some(at)) else token
  }

  function RevokeMatching(tokens: map<string, Token>, m: Match, at: Instant): map<string, Token> {
    map id | id in tokens :: if Matches(m, tokens[id].session) then RevokeToken(tokens[id], at) else tokens[id]
  }

  function SuspendMemberships(memberships: map<(string, string), Membership>,
          p: string): map<(string, string), Membership> {
    map k | k in memberships :: if k.1 == p then memberships[k].(active := false) else memberships[k]
  }

  function SuspendDelegations(delegations: map<string, Delegation>, ids: set<string>): map<string, Delegation> {
    map d | d in delegations :: if d in ids then delegations[d].(active := false) else delegations[d]
  }

  // Bindings of the given delegations, and those of principal `p` when one is named.
  predicate Affected(b: Binding, ids: set<string>, p: Option<string>) {
    b.delegation in ids || p == Some(b.agent) || p == Some(b.user)
  }

  function SuspendBindings(bindings: map<(string, string), Binding>, ids: set<string>,
          p: Option<string>): map<(string, string), Binding> {
    map k | k in bindings :: if Affected(bindings[k], ids, p) then bindings[k].(active := false) else bindings[k]
  }

  function DelegationsOf(s: State, p: string): set<string> {
    set d | d in s.delegations && (s.delegations[d].agent == p || s.delegations[d].subject == p)
  }

  function DelegationsIn(s: State, t: string, p: string): set<string> {
    set d | d in DelegationsOf(s, p) && s.delegations[d].tenant == t
  }

  function DisablePrincipal(s: State, p: string, at: Instant): State
    requires p in s.principals
  {
    s.(principals := s.principals[p := s.principals[p].(active := false)],
       memberships := SuspendMemberships(s.memberships, p),
       delegations := SuspendDelegations(s.delegations, DelegationsOf(s, p)),
       bindings := SuspendBindings(s.bindings, DelegationsOf(s, p), Some(p)),
       tokens := RevokeMatching(s.tokens, OfPrincipal(p), at))
  }

  function DisableMembership(s: State, t: string, p: string, at: Instant): State
    requires (t, p) in s.memberships
  {
    s.(memberships := s.memberships[(t, p) := s.memberships[(t, p)].(active := false)],
       delegations := SuspendDelegations(s.delegations, DelegationsIn(s, t, p)),
       bindings := SuspendBindings(s.bindings, DelegationsIn(s, t, p), None),
       tokens := RevokeMatching(s.tokens, OfMember(t, p), at))
  }

  function UpdatePrincipal(s: State, p: string, active: bool, at: Instant): State
    requires p in s.principals
  {
    if active then s.(principals := s.principals[p := s.principals[p].(active := true)]) else DisablePrincipal(s, p, at)
  }

  function UpdateMembership(s: State, t: string, p: string, m: Membership, at: Instant): State
    requires (t, p) in s.memberships
  {
    var current := s.memberships[(t, p)];
    var s1 := if m.active then s else DisableMembership(s, t, p, at);
    var s2 := s1.(memberships := s1.memberships[(t, p) := m]);
    if m == current then s2 else s2.(tokens := RevokeMatching(s2.tokens, OfActor(t, p), at))
  }

  function RevokeRole(s: State, t: string, p: string, role: Role, at: Instant): State
    requires (t, p) in s.memberships
  {
    var current := s.memberships[(t, p)];
    if current.roles - {role} == {} then DisableMembership(s, t, p, at)
    else s.(memberships := s.memberships[(t, p) := current.(roles := current.roles - {role})],
            tokens := RevokeMatching(s.tokens, OfActor(t, p), at))
  }

  function RevokeDelegation(s: State, d: string, at: Instant): State
    requires d in s.delegations
  {
    s.(delegations := SuspendDelegations(s.delegations, {d}),
       bindings := SuspendBindings(s.bindings, {d}, None),
       tokens := RevokeMatching(s.tokens, OfDelegation(d), at))
  }

  // ---------------------------------------------------------------------------
  // Reading: the lazy checks
  // ---------------------------------------------------------------------------

  predicate ActiveTenant(s: State, t: string) {
    t in s.tenants && s.tenants[t].active
  }

  predicate ActivePrincipal(s: State, p: string) {
    p in s.principals && s.principals[p].active
  }

  predicate ActiveMember(s: State, t: string, p: string) {
    (t, p) in s.memberships && s.memberships[(t, p)].active
  }

  predicate ActiveDelegation(s: State, d: string) {
    d in s.delegations && s.delegations[d].active
  }

  function GetToken(s: State, id: string): Option<Token> {
    if id !in s.tokens then None
    else
      var session := s.tokens[id].session;
      if !ActiveTenant(s, session.tenant) || !ActivePrincipal(s, session.actor)
         || !ActiveMember(s, session.tenant, session.actor) then None
      else if session.delegation.Some? && !ActiveDelegation(s, session.delegation.value) then None
      else Some(s.tokens[id])
  }

  // Rehydrates the current authority of a session held by delayed work.
  function Reauthorize(s: State, session: Session): Result<Session, Error> {
    if !ActiveTenant(s, session.tenant) then Err(NotFound)
    else if !ActivePrincipal(s, session.actor) || s.principals[session.actor].kind != session.kind then Err(NotFound)
    else if !ActiveMember(s, session.tenant, session.actor) then Err(NotFound)
    else
      var current := session.(roles := s.memberships[(session.tenant, session.actor)].roles);
      if session.delegation.None? then Ok(current)
      else if !ActiveDelegation(s, session.delegation.value) then Err(NotFound)
      else
        var d := s.delegations[session.delegation.value];
        if d.tenant != session.tenant || d.agent != session.actor || Some(d.subject) != session.subject then Err(NotFound)
        else if !ActivePrincipal(s, d.subject) || s.principals[d.subject].kind != User then Err(NotFound)
        else if !ActiveMember(s, session.tenant, d.subject) then Err(NotFound)
        else Ok(current)
  }

  function ResolveChannel(s: State, channel: string, external: string): Result<Session, Error> {
    if (channel, external) !in s.bindings || !s.bindings[(channel, external)].active then Err(NotFound)
    else
      var b := s.bindings[(channel, external)];
      if !ActiveDelegation(s, b.delegation) then Err(NotFound)
      else
        var d := s.delegations[b.delegation];
        if d.tenant != b.tenant || d.agent != b.agent || d.subject != b.user then Err(NotFound)
        else if !ActiveMember(s, b.tenant, b.agent) then Err(NotFound)
        else Ok(Session(b.tenant, b.agent, Agent, s.memberships[(b.tenant, b.agent)].roles, Some(b.user), Some(b.delegation)))
  }

  // ---------------------------------------------------------------------------
  // The guarded operations
  // ---------------------------------------------------------------------------

  // New ids and secrets are drawn by the caller; a drawn token id is never one already in use.
  datatype Op =
    | CreateTenantOp(t: string)
    | CreatePrincipalOp(p: string, kind: Kind)
    | UpdatePrincipalOp(p: string, setActive: Option<bool>)
    | DisablePrincipalOp(p: string)
    | GrantMembershipOp(t: string, p: string, role: Role)
    | UpdateMembershipOp(t: string, p: string, setRoles: Option<set<Role>>, setActive: Option<bool>)
    | DisableMembershipOp(t: string, p: string)
    | RevokeRoleOp(t: string, p: string, role: Role)
    | CreateDelegationOp(d: string, t: string, agent: string, subject: string)
    | UpdateDelegationOp(d: string, active: bool)
    | RevokeDelegationOp(d: string)
    | CreateBindingOp(channel: string, external: string, d: string)
    | DisableBindingOp(channel: string, external: string)
    | RemoveBindingOp(channel: string, external: string)
    | ConfigureLifetimeOp(t: string, kind: Kind, days: int, delegated: bool)
    | IssueTokenOp(id: string, verifier: string, t: string, p: string, lifetime: Option<int>)
    | IssueDelegatedOp(id: string, verifier: string, d: string, lifetime: Option<int>)
    | RevokeTokenOp(id: string)
    | RotateTokenOp(id: string, newId: string, verifier: string, overlap: int, lifetime: Option<int>)
    | AuthenticateOp(id: string, verifier: string)

  function MaximumLifetime(s: State, t: string, kind: Kind, delegated: bool, platformDays: int): int {
    var key := (t, kind, delegated);
    (if key in s.lifetimeDays && s.lifetimeDays[key] != 0 then s.lifetimeDays[key] else platformDays) * DAY
  }

  function PlatformDays(kind: Kind): int {
    if kind == User then 90 else 30
  }

  predicate LifetimeAllowed(requested: int, maximum: int) {
    0 < requested <= maximum
  }

  predicate DelegationPermitted(s: State, t: string, agent: string, subject: string) {
    && ActiveTenant(s, t)
    && ActivePrincipal(s, agent) && s.principals[agent].kind == Agent
    && ActivePrincipal(s, subject) && s.principals[subject].kind == User
    && ActiveMember(s, t, agent) && ActiveMember(s, t, subject)
  }

  function Min(a: int, b: int): int {
    if a <= b then a else b
  }

  function GrantMembership(s: State, t: string, p: string, role: Role): Result<State, Error> {
    if role !in VALID_ROLES then Err(Invalid)
    else if !ActiveTenant(s, t) || !ActivePrincipal(s, p) then Err(NotFound)
    else if s.principals[p].kind == Agent && role != MEMBER_ROLE then Err(Invalid)
    else
      var roles := if (t, p) in s.memberships then s.memberships[(t, p)].roles + {role} else {role};
      Ok(s.(memberships := s.memberships[(t, p) := Membership(roles, true)]))
  }

  function ChangeMembership(s: State, t: string, p: string, setRoles: Option<set<Role>>,
          setActive: Option<bool>, now: Instant): Result<State, Error> {
    if (t, p) !in s.memberships then Err(NotFound)
    else if setRoles.None? && setActive.None? then Err(Invalid)
    else
      var current := s.memberships[(t, p)];
      var roles := if setRoles.None? then current.roles else setRoles.value;
      var active := if setActive.None? then current.active else setActive.value;
      if roles == {} || !(roles <= VALID_ROLES) then Err(Invalid)
      else if p !in s.principals then Err(NotFound)
      else if s.principals[p].kind == Agent && roles != {MEMBER_ROLE} then Err(Invalid)
      else if active && (!ActiveTenant(s, t) || !s.principals[p].active) then Err(NotFound)
      else Ok(UpdateMembership(s, t, p, Membership(roles, active), now))
  }

  function NewToken(verifier: string, session: Session, lifetime: int, now: Instant): Token {
    Token(verifier, session, now + lifetime, now, None, None)
  }

  function IssueToken(s: State, id: string, verifier: string, t: string, p: string, lifetime: Option<int>,
          now: Instant): Result<State, Error> {
    if !ActiveTenant(s, t) || !ActivePrincipal(s, p) || !ActiveMember(s, t, p) then Err(NotFound)
    else
      var kind := s.principals[p].kind;
      var maximum := MaximumLifetime(s, t, kind, false, PlatformDays(kind));
      var requested := if lifetime.None? then maximum else lifetime.value;
      if !LifetimeAllowed(requested, maximum) then Err(Invalid)
      else if id in s.tokens then Err(Conflict)
      else Ok(s.(tokens := s.tokens[id := NewToken(verifier,
             Session(t, p, kind, s.memberships[(t, p)].roles, None, None), requested, now)]))
  }

  function IssueDelegated(s: State, id: string, verifier: string, d: string, lifetime: Option<int>,
          now: Instant): Result<State, Error> {
    var maximum := if d in s.delegations then MaximumLifetime(s, s.delegations[d].tenant, Agent, true, 90) else 90 * DAY;
    var requested := if lifetime.None? then maximum else lifetime.value;
    if !LifetimeAllowed(requested, maximum) then Err(Invalid)
    else if !ActiveDelegation(s, d) then Err(NotFound)
    else
      var del := s.delegations[d];
      if !ActiveMember(s, del.tenant, del.agent) then Err(NotFound)
      else if id in s.tokens then Err(Conflict)
      else Ok(s.(tokens := s.tokens[id := NewToken(verifier,
             Session(del.tenant, del.agent, Agent, s.memberships[(del.tenant, del.agent)].roles, Some(del.subject), Some(d)),
             requested, now)]))
  }

  // The old token keeps working for a bounded overlap; its replacement carries the current roles.
  function RotateToken(s: State, id: string, newId: string, verifier: string, overlap: int,
          lifetime: Option<int>, now: Instant): Result<State, Error> {
    if overlap <= 0 || overlap > DAY then Err(Invalid)
    else match GetToken(s, id)
      case None => Err(NotFound)
      case Some(previous) =>
        if previous.revokedAt.Some? || previous.expiresAt <= now then Err(NotFound)
        else
          var session := previous.session;
          var kind := s.principals[session.actor].kind;
          var delegated := session.delegation.Some?;
          if delegated && (session.subject.None? || !ActivePrincipal(s, session.subject.value)
                           || !ActiveMember(s, session.tenant, session.subject.value)) then Err(NotFound)
          else
            var maximum := MaximumLifetime(s, session.tenant, kind, delegated, if delegated then 90 else PlatformDays(kind));
            var requested := if lifetime.None? then maximum else lifetime.value;
            if !LifetimeAllowed(requested, maximum) then Err(Invalid)
            else if newId in s.tokens then Err(Denied)
            else
              var until := now + Min(overlap, previous.expiresAt - now);
              var replacement := NewToken(verifier,
                session.(kind := kind, roles := s.memberships[(session.tenant, session.actor)].roles), requested, now);
              Ok(s.(tokens := s.tokens[id := previous.(expiresAt := Min(previous.expiresAt, until))][newId := replacement]))
  }

  function Authenticate(s: State, id: string, verifier: string, now: Instant): Result<(State, Session), Error> {
    match GetToken(s, id)
    case None => Err(Denied)
    case Some(token) =>
      if token.verifier != verifier || token.revokedAt.Some? || now >= token.expiresAt then Err(Denied)
      else Ok((s.(tokens := s.tokens[id := token.(lastUsedAt := Some(now))]), token.session))
  }

  function Perform(s: State, op: Op, now: Instant): Result<State, Error> {
    match op
    case CreateTenantOp(t) =>
      if t in s.tenants then Err(Conflict) else Ok(s.(tenants := s.tenants[t := Tenant(true)]))
    case CreatePrincipalOp(p, kind) =>
      if p in s.principals then Err(Conflict) else Ok(s.(principals := s.principals[p := Principal(kind, true)]))
    case UpdatePrincipalOp(p, setActive) =>
      if p !in s.principals then Err(NotFound)
      else Ok(UpdatePrincipal(s, p, if setActive.None? then s.principals[p].active else setActive.value, now))
    case DisablePrincipalOp(p) => if p !in s.principals then Err(NotFound) else Ok(DisablePrincipal(s, p, now))
    case GrantMembershipOp(t, p, role) => GrantMembership(s, t, p, role)
    case UpdateMembershipOp(t, p, setRoles, setActive) => ChangeMembership(s, t, p, setRoles, setActive, now)
    case DisableMembershipOp(t, p) => if (t, p) !in s.memberships then Err(NotFound) else Ok(DisableMembership(s, t, p, now))
    case RevokeRoleOp(t, p, role) =>
      if role !in VALID_ROLES then Err(Invalid)
      else if (t, p) !in s.memberships || role !in s.memberships[(t, p)].roles then Err(NotFound)
      else Ok(RevokeRole(s, t, p, role, now))
    case CreateDelegationOp(d, t, agent, subject) =>
      if !DelegationPermitted(s, t, agent, subject) then Err(NotFound)
      else if d in s.delegations then Err(Conflict)
      else Ok(s.(delegations := s.delegations[d := Delegation(t, agent, subject, true)]))
    case UpdateDelegationOp(d, active) =>
      if d !in s.delegations then Err(NotFound)
      else if !active then Ok(RevokeDelegation(s, d, now))
      else if !DelegationPermitted(s, s.delegations[d].tenant, s.delegations[d].agent, s.delegations[d].subject) then Err(NotFound)
      else Ok(s.(delegations := s.delegations[d := s.delegations[d].(active := true)]))
    case RevokeDelegationOp(d) => if d !in s.delegations then Err(NotFound) else Ok(RevokeDelegation(s, d, now))
    case CreateBindingOp(channel, external, d) =>
      if channel != "telegram" || external == "" || exists ch | ch in external :: !('0' <= ch <= '9') then Err(Invalid)
      else if !ActiveDelegation(s, d) then Err(NotFound)
      else if (channel, external) in s.bindings then Err(Conflict)
      else Ok(s.(bindings := s.bindings[(channel, external) :=
             Binding(s.delegations[d].tenant, s.delegations[d].subject, s.delegations[d].agent, d, true)]))
    case DisableBindingOp(channel, external) =>
      if (channel, external) !in s.bindings then Err(NotFound)
      else Ok(s.(bindings := s.bindings[(channel, external) := s.bindings[(channel, external)].(active := false)]))
    case RemoveBindingOp(channel, external) => Ok(s.(bindings := s.bindings - {(channel, external)}))
    case ConfigureLifetimeOp(t, kind, days, delegated) => Ok(s.(lifetimeDays := s.lifetimeDays[(t, kind, delegated) := days]))
    case IssueTokenOp(id, verifier, t, p, lifetime) => IssueToken(s, id, verifier, t, p, lifetime, now)
    case IssueDelegatedOp(id, verifier, d, lifetime) => IssueDelegated(s, id, verifier, d, lifetime, now)
    case RevokeTokenOp(id) =>
      if id !in s.tokens then Err(NotFound) else Ok(s.(tokens := s.tokens[id := RevokeToken(s.tokens[id], now)]))
    case RotateTokenOp(id, newId, verifier, overlap, lifetime) => RotateToken(s, id, newId, verifier, overlap, lifetime, now)
    case AuthenticateOp(id, verifier) =>
      (match Authenticate(s, id, verifier, now) case Err(e) => Err(e) case Ok((s', _)) => Ok(s'))
  }

  datatype Call = Call(op: Op, now: Instant)

  // A rejected call leaves the state alone.
  function Run(s: State, calls: seq<Call>): State {
    if calls == [] then s
    else
      var before := Run(s, calls[..|calls| - 1]);
      var last := calls[|calls| - 1];
      match Perform(before, last.op, last.now) case Ok(after) => after case Err(_) => before
  }

  // ---------------------------------------------------------------------------
  // The invariant
  // ---------------------------------------------------------------------------

  ghost predicate MembershipsBacked(s: State) {
    forall k | k in s.memberships && s.memberships[k].active :: ActiveTenant(s, k.0) && ActivePrincipal(s, k.1)
  }

  ghost predicate DelegationBacked(s: State, d: Delegation) {
    && ActiveMember(s, d.tenant, d.agent) && d.agent in s.principals && s.principals[d.agent].kind == Agent
    && ActiveMember(s, d.tenant, d.subject) && d.subject in s.principals && s.principals[d.subject].kind == User
  }

  ghost predicate DelegationsBacked(s: State) {
    forall d | d in s.delegations && s.delegations[d].active :: DelegationBacked(s, s.delegations[d])
  }

  ghost predicate BindingBacked(s: State, b: Binding) {
    && ActiveDelegation(s, b.delegation)
    && var d := s.delegations[b.delegation]; d.tenant == b.tenant && d.agent == b.agent && d.subject == b.user
  }

  ghost predicate BindingsBacked(s: State) {
    forall k | k in s.bindings && s.bindings[k].active :: BindingBacked(s, s.bindings[k])
  }

  ghost predicate SessionBacked(s: State, session: Session) {
    && ActiveMember(s, session.tenant, session.actor)
    && session.actor in s.principals && s.principals[session.actor].kind == session.kind
    && session.roles <= s.memberships[(session.tenant, session.actor)].roles
    && (session.subject.Some? <==> session.delegation.Some?)
    && (session.delegation.Some? ==>
          && ActiveDelegation(s, session.delegation.value)
          && var d := s.delegations[session.delegation.value];
             d.tenant == session.tenant && d.agent == session.actor && Some(d.subject) == session.subject)
  }

  ghost predicate TokensBacked(s: State) {
    forall id | id in s.tokens && s.tokens[id].revokedAt.None? :: SessionBacked(s, s.tokens[id].session)
  }

  ghost predicate Inv(s: State) {
    MembershipsBacked(s) && DelegationsBacked(s) && BindingsBacked(s) && TokensBacked(s)
  }

  lemma DisablePrincipalKeeps(s: State, p: string, at: Instant)
    requires Inv(s) && p in s.principals
    ensures Inv(DisablePrincipal(s, p, at))
  {
  }

  lemma DisableMembershipKeeps(s: State, t: string, p: string, at: Instant)
    requires Inv(s) && (t, p) in s.memberships
    ensures Inv(DisableMembership(s, t, p, at))
  {
  }

  lemma RevokingKeeps(s: State, m: Match, at: Instant)
    requires Inv(s)
    ensures Inv(s.(tokens := RevokeMatching(s.tokens, m, at)))
  {
  }

  lemma InactiveMembershipKeeps(s: State, t: string, p: string, m: Membership)
    requires Inv(s) && !ActiveMember(s, t, p) && !m.active
    ensures Inv(s.(memberships := s.memberships[(t, p) := m]))
  {
  }

  lemma NewRolesKeep(s: State, t: string, p: string, m: Membership, at: Instant)
    requires Inv(s) && m.active && ActiveTenant(s, t) && ActivePrincipal(s, p)
    ensures Inv(s.(memberships := s.memberships[(t, p) := m], tokens := RevokeMatching(s.tokens, OfActor(t, p), at)))
  {
  }

  lemma UpdateMembershipKeeps(s: State, t: string, p: string, m: Membership, at: Instant)
    requires Inv(s) && (t, p) in s.memberships
    requires m.active ==> ActiveTenant(s, t) && ActivePrincipal(s, p)
    ensures Inv(UpdateMembership(s, t, p, m, at))
  {
    if m == s.memberships[(t, p)] && m.active {
      assert UpdateMembership(s, t, p, m, at) == s by { assert s.memberships[(t, p) := m] == s.memberships; }
    } else if m.active {
      NewRolesKeep(s, t, p, m, at);
    } else {
      var disabled := DisableMembership(s, t, p, at);
      DisableMembershipKeeps(s, t, p, at);
      InactiveMembershipKeeps(disabled, t, p, m);
      RevokingKeeps(disabled.(memberships := disabled.memberships[(t, p) := m]), OfActor(t, p), at);
    }
  }

  lemma RevokeRoleKeeps(s: State, t: string, p: string, role: Role, at: Instant)
    requires Inv(s) && (t, p) in s.memberships
    ensures Inv(RevokeRole(s, t, p, role, at))
  {
    if s.memberships[(t, p)].roles - {role} == {} {
      DisableMembershipKeeps(s, t, p, at);
    }
  }

  lemma RevokeDelegationKeeps(s: State, d: string, at: Instant)
    requires Inv(s) && d in s.delegations
    ensures Inv(RevokeDelegation(s, d, at))
  {
  }

  lemma GrantKeeps(s: State, t: string, p: string, role: Role)
    requires Inv(s)
    ensures GrantMembership(s, t, p, role).Ok? ==> Inv(GrantMembership(s, t, p, role).value)
  {
  }

  lemma ChangeMembershipKeeps(s: State, t: string, p: string, setRoles: Option<set<Role>>,
          setActive: Option<bool>, now: Instant)
    requires Inv(s)
    ensures var r := ChangeMembership(s, t, p, setRoles, setActive, now); r.Ok? ==> Inv(r.value)
  {
    if ChangeMembership(s, t, p, setRoles, setActive, now).Ok? {
      var current := s.memberships[(t, p)];
      UpdateMembershipKeeps(s, t, p, Membership(if setRoles.None? then current.roles else setRoles.value,
                                               if setActive.None? then current.active else setActive.value), now);
    }
  }

  lemma IssueKeeps(s: State, id: string, verifier: string, t: string, p: string, lifetime: Option<int>, now: Instant)
    requires Inv(s)
    ensures var r := IssueToken(s, id, verifier, t, p, lifetime, now); r.Ok? ==> Inv(r.value)
  {
  }

  lemma IssueDelegatedKeeps(s: State, id: string, verifier: string, d: string, lifetime: Option<int>, now: Instant)
    requires Inv(s)
    ensures var r := IssueDelegated(s, id, verifier, d, lifetime, now); r.Ok? ==> Inv(r.value)
  {
  }

  lemma RotateKeeps(s: State, id: string, newId: string, verifier: string, overlap: int,
          lifetime: Option<int>, now: Instant)
    requires Inv(s)
    ensures var r := RotateToken(s, id, newId, verifier, overlap, lifetime, now); r.Ok? ==> Inv(r.value)
  {
  }

  // Operations that touch only tenants, principals or delegations that back nothing yet.
  lemma GrowKeeps(s: State, op: Op, now: Instant)
    requires Inv(s)
    requires op.CreateTenantOp? || op.CreatePrincipalOp? || op.CreateDelegationOp? || op.CreateBindingOp? || op.ConfigureLifetimeOp?
    ensures Perform(s, op, now).Ok? ==> Inv(Perform(s, op, now).value)
  {
  }

  lemma ShrinkKeeps(s: State, op: Op, now: Instant)
    requires Inv(s)
    requires op.DisableBindingOp? || op.RemoveBindingOp? || op.RevokeTokenOp? || op.AuthenticateOp?
    ensures Perform(s, op, now).Ok? ==> Inv(Perform(s, op, now).value)
  {
  }

  lemma PerformKeeps(s: State, op: Op, now: Instant)
    requires Inv(s)
    ensures Perform(s, op, now).Ok? ==> Inv(Perform(s, op, now).value)
  {
    match op {
      case UpdatePrincipalOp(p, _) => if p in s.principals { DisablePrincipalKeeps(s, p, now); }
      case DisablePrincipalOp(p) => if p in s.principals { DisablePrincipalKeeps(s, p, now); }
      case GrantMembershipOp(t, p, role) => GrantKeeps(s, t, p, role);
      case UpdateMembershipOp(t, p, setRoles, setActive) => ChangeMembershipKeeps(s, t, p, setRoles, setActive, now);
      case DisableMembershipOp(t, p) => if (t, p) in s.memberships { DisableMembershipKeeps(s, t, p, now); }
      case RevokeRoleOp(t, p, role) => if (t, p) in s.memberships { RevokeRoleKeeps(s, t, p, role, now); }
      case UpdateDelegationOp(d, _) => if d in s.delegations { RevokeDelegationKeeps(s, d, now); }
      case RevokeDelegationOp(d) => if d in s.delegations { RevokeDelegationKeeps(s, d, now); }
      case IssueTokenOp(id, v, t, p, lifetime) => IssueKeeps(s, id, v, t, p, lifetime, now);
      case IssueDelegatedOp(id, v, d, lifetime) => IssueDelegatedKeeps(s, id, v, d, lifetime, now);
      case RotateTokenOp(id, newId, v, overlap, lifetime) => RotateKeeps(s, id, newId, v, overlap, lifetime, now);
      case DisableBindingOp(_, _) => ShrinkKeeps(s, op, now);
      case RemoveBindingOp(_, _) => ShrinkKeeps(s, op, now);
      case RevokeTokenOp(_) => ShrinkKeeps(s, op, now);
      case AuthenticateOp(_, _) => ShrinkKeeps(s, op, now);
      case _ => GrowKeeps(s, op, now);
    }
  }

  // In every state reachable by any calls, no unrevoked credential outlives its authority.
  lemma {:induction false} NoStaleAuthority(calls: seq<Call>)
    ensures Inv(Run(EMPTY, calls))
  {
    if calls != [] {
      var before, last := Run(EMPTY, calls[..|calls| - 1]), calls[|calls| - 1];
      NoStaleAuthority(calls[..|calls| - 1]);
      PerformKeeps(before, last.op, last.now);
    }
  }

  // ---------------------------------------------------------------------------
  // Eager revocation agrees with the lazy checks
  // ---------------------------------------------------------------------------

  // An unrevoked token is always readable, and its session rehydrates with at least its roles.
  lemma EagerAgreesWithLazy(calls: seq<Call>, id: string)
    requires id in Run(EMPTY, calls).tokens && Run(EMPTY, calls).tokens[id].revokedAt.None?
    ensures var s := Run(EMPTY, calls);
            var session := s.tokens[id].session;
            && GetToken(s, id) == Some(s.tokens[id])
            && Reauthorize(s, session).Ok?
            && session.roles <= Reauthorize(s, session).value.roles
            && Reauthorize(s, session).value == session.(roles := s.memberships[(session.tenant, session.actor)].roles)
  {
    NoStaleAuthority(calls);
  }

  // Authentication of an existing token fails on exactly three grounds, none of them staleness.
  lemma AuthenticateExactly(calls: seq<Call>, id: string, verifier: string, now: Instant)
    requires id in Run(EMPTY, calls).tokens
    ensures var s := Run(EMPTY, calls);
            var token := s.tokens[id];
            Authenticate(s, id, verifier, now).Ok? <==>
              token.verifier == verifier && token.revokedAt.None? && now < token.expiresAt
  {
    if Run(EMPTY, calls).tokens[id].revokedAt.None? {
      EagerAgreesWithLazy(calls, id);
    }
  }

  // An active channel binding always resolves to its delegation's session.
  lemma ActiveBindingResolves(calls: seq<Call>, channel: string, external: string)
    ensures var s := Run(EMPTY, calls);
            ResolveChannel(s, channel, external).Ok? <==>
              (channel, external) in s.bindings && s.bindings[(channel, external)].active
  {
    NoStaleAuthority(calls);
  }

  // A revoked token never authenticates again, whatever calls follow.
  lemma {:induction false} RevocationIsPermanent(s: State, calls: seq<Call>, id: string)
    requires id in s.tokens && s.tokens[id].revokedAt.Some?
    ensures var s' := Run(s, calls); id in s'.tokens && s'.tokens[id].revokedAt == s.tokens[id].revokedAt
    ensures forall verifier, now :: Authenticate(Run(s, calls), id, verifier, now).Err?
  {
    if calls != [] {
      var n := |calls| - 1;
      RevocationIsPermanent(s, calls[..n], id);
      RevokedStays(Run(s, calls[..n]), calls[n].op, calls[n].now, id);
    }
  }

  lemma RevokedStays(s: State, op: Op, now: Instant, id: string)
    requires id in s.tokens && s.tokens[id].revokedAt.Some?
    ensures Perform(s, op, now).Ok? ==>
      var s' := Perform(s, op, now).value; id in s'.tokens && s'.tokens[id].revokedAt == s.tokens[id].revokedAt
  {
  }

  // Rotation never lengthens the old token, and the overlap is bounded.
  lemma RotationIsBounded(s: State, id: string, newId: string, verifier: string, overlap: int,
          lifetime: Option<int>, now: Instant)
    requires RotateToken(s, id, newId, verifier, overlap, lifetime, now).Ok?
    ensures var s' := RotateToken(s, id, newId, verifier, overlap, lifetime, now).value;
            && id != newId && s'.tokens.Keys == s.tokens.Keys + {newId}
            && s'.tokens[id].expiresAt == Min(s.tokens[id].expiresAt, now + overlap)
            && s'.tokens[id] == s.tokens[id].(expiresAt := s'.tokens[id].expiresAt)
            && s'.tokens[newId].session.actor == s.tokens[id].session.actor
            && s'.tokens[newId].session.tenant == s.tokens[id].session.tenant
            && s'.tokens[newId].session.delegation == s.tokens[id].session.delegation
  {
  }
}
