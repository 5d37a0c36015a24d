// The operator side of the control plane: operators, their access tokens, and the browser
// sessions those tokens open. Changing an operator's roles or active state revokes everything
// that was issued under the old ones.
module Operators {
  import opened Common

  type Instant = int

  const SECOND: int := 1_000_000   // microseconds
  const IDLE_LIFETIME: int := 30 * 60 * SECOND
  const ABSOLUTE_LIFETIME: int := 8 * 60 * 60 * SECOND
  const TOKEN_LIFETIME: int := 30 * 24 * 60 * 60 * SECOND
  const MAXIMUM_OVERLAP: int := 24 * 60 * 60 * SECOND
  const ADMIN := "operator_admin"
  const VALID_OPERATOR_ROLES: set<string> :=
    {ADMIN, "identity_admin", "tenant_provisioner", "tenant_support", "knowledge_admin", "token_admin", "audit_viewer"}

  datatype Operator = Operator(roles: set<string>, active: bool)

  datatype OperatorSession = OperatorSession(operator: string, roles: set<string>, token: Option<string>, session: Option<string>)

  datatype Token = Token(
    verifier: string,
    session: OperatorSession,
    expiresAt: Instant,
    issuedAt: Instant,
    revokedAt: Option<Instant>,
    lastUsedAt: Option<Instant>)

  datatype AdminSession = AdminSession(
    verifier: string,
    csrfVerifier: string,
    session: OperatorSession,
    absoluteExpiresAt: Instant,
    idleExpiresAt: Instant,
    issuedAt: Instant,
    revokedAt: Option<Instant>,
    lastUsedAt: Option<Instant>)

  datatype State = State(
    operators: map<string, Operator>,
    tokens: map<string, Token>,
    sessions: map<string, AdminSession>)

  const EMPTY := State(map[], map[], map[])

  datatype Error = NotFound | Conflict | Invalid | Denied

  function Min(a: int, b: int): int {
    if a <= b then a else b
  }

  // ---------------------------------------------------------------------------
  // The store
  // ---------------------------------------------------------------------------

  predicate ActiveAdmin(o: Operator) {
    o.active && ADMIN in o.roles
  }

  function ActiveAdmins(operators: map<string, Operator>): set<string> {
    set o | o in operators && ActiveAdmin(operators[o])
  }

  function RevokeToken(t: Token, at: Instant): Token {
    if t.revokedAt.None? then t.(revokedAt := Some(at)) else t
  }

  function RevokeSession(a: AdminSession, at: Instant): AdminSession {
    if a.revokedAt.None? then a.(revokedAt := Some(at)) else a
  }

  function RevokeTokensOf(tokens: map<string, Token>, o: string, at: Instant): map<string, Token> {
    map id | id in tokens :: if tokens[id].session.operator == o then RevokeToken(tokens[id], at) else tokens[id]
  }

  function RevokeSessionsOf(sessions: map<string, AdminSession>, o: string, at: Instant): map<string, AdminSession> {
    map id | id in sessions :: if sessions[id].session.operator == o then RevokeSession(sessions[id], at) else sessions[id]
  }

  function StoreOperator(s: State, o: string, updated: Operator, at: Instant): State
    requires o in s.operators
  {
    var s1 := s.(operators := s.operators[o := updated]);
    if updated == s.operators[o] then s1
    else s1.(tokens := RevokeTokensOf(s.tokens, o, at), sessions := RevokeSessionsOf(s.sessions, o, at))
  }

  predicate Entitled(s: State, o: string) {
    o in s.operators && s.operators[o].active && s.operators[o].roles != {}
  }

  function GetToken(s: State, id: string): Option<Token> {
    if id in s.tokens && Entitled(s, s.tokens[id].session.operator) then Some(s.tokens[id]) else None
  }

  function GetSession(s: State, id: string): Option<AdminSession> {
    if id in s.sessions && Entitled(s, s.sessions[id].session.operator) then Some(s.sessions[id]) else None
  }

  // ---------------------------------------------------------------------------
  // The guarded operations
  // ---------------------------------------------------------------------------

  function CreateOperator(s: State, o: string, roles: set<string>): Result<State, Error> {
    if !(roles <= VALID_OPERATOR_ROLES) then Err(Invalid)
    else if o in s.operators then Err(Conflict)
    else Ok(s.(operators := s.operators[o := Operator(roles, true)]))
  }

  function UpdateOperator(s: State, o: string, setRoles: Option<set<string>>, setActive: Option<bool>,
          now: Instant): Result<State, Error> {
    if o !in s.operators then Err(NotFound)
    else
      var current := s.operators[o];
      if setRoles.None? && setActive.None? then Err(Invalid)
      else
        var roles := if setRoles.None? then current.roles else setRoles.value;
        var active := if setActive.None? then current.active else setActive.value;
        if !(roles <= VALID_OPERATOR_ROLES) then Err(Invalid)
        else if ActiveAdmin(current) && (!active || ADMIN !in roles) && |ActiveAdmins(s.operators)| <= 1 then Err(Invalid)
        else Ok(StoreOperator(s, o, Operator(roles, active), now))
  }

  predicate LifetimeAllowed(lifetime: int) {
    0 < lifetime <= TOKEN_LIFETIME
  }

  function NewToken(id: string, verifier: string, o: string, roles: set<string>, lifetime: int, now: Instant): Token {
    Token(verifier, OperatorSession(o, roles, Some(id), None), now + lifetime, now, None, None)
  }

  // New ids and secrets are drawn by the caller; a drawn id is never one already in use.
  function IssueToken(s: State, id: string, verifier: string, o: string, lifetime: int,
          now: Instant): Result<State, Error> {
    if o !in s.operators || !s.operators[o].active then Err(NotFound)
    else if s.operators[o].roles == {} then Err(Denied)
    else if !LifetimeAllowed(lifetime) then Err(Invalid)
    else if id in s.tokens then Err(Conflict)
    else Ok(s.(tokens := s.tokens[id := NewToken(id, verifier, o, s.operators[o].roles, lifetime, now)]))
  }

  function RotateToken(s: State, id: string, newId: string, verifier: string, overlap: int, lifetime: int,
          now: Instant): Result<State, Error> {
    if overlap <= 0 || overlap > MAXIMUM_OVERLAP then Err(Invalid)
    else match GetToken(s, id)
      case None => Err(NotFound)
      case Some(previous) =>
        var o := previous.session.operator;
        if previous.revokedAt.Some? || previous.expiresAt <= now then Err(NotFound)
        else if !LifetimeAllowed(lifetime) then Err(Invalid)
        else if newId in s.tokens then Err(Denied)
        else
          var until := now + Min(overlap, previous.expiresAt - now);
          Ok(s.(tokens := s.tokens[id := previous.(expiresAt := Min(previous.expiresAt, until))]
                                  [newId := NewToken(newId, verifier, o, s.operators[o].roles, lifetime, now)]))
  }

  // The session returned carries the operator's current roles, read again after the check.
  function Authenticate(s: State, id: string, verifier: string,
          now: Instant): Result<(State, OperatorSession), Error> {
    match GetToken(s, id)
    case None => Err(Denied)
    case Some(token) =>
      if token.verifier != verifier || token.revokedAt.Some? || now >= token.expiresAt then Err(Denied)
      else
        var o := token.session.operator;
        Ok((s.(tokens := s.tokens[id := token.(lastUsedAt := Some(now))]),
            OperatorSession(o, s.operators[o].roles, token.session.token, None)))
  }

  function CreateSession(s: State, id: string, verifier: string, sid: string, sessionVerifier: string,
          csrf: string, now: Instant): Result<State, Error> {
    match Authenticate(s, id, verifier, now)
    case Err(e) => Err(e)
    case Ok((s1, session)) =>
      if sid in s.sessions then Err(Conflict)
      else Ok(s1.(sessions := s1.sessions[sid := AdminSession(sessionVerifier, csrf, session.(session := Some(sid)),
                now + ABSOLUTE_LIFETIME, now + IDLE_LIFETIME, now, None, None)]))
  }

  function AuthenticateSession(s: State, sid: string, verifier: string, csrf: Option<string>,
          requireCsrf: bool, now: Instant): Result<(State, OperatorSession), Error> {
    match GetSession(s, sid)
    case None => Err(Denied)
    case Some(a) =>
      if a.verifier != verifier then Err(Denied)
      else if requireCsrf && csrf != Some(a.csrfVerifier) then Err(Denied)
      else if a.revokedAt.Some? || now >= a.absoluteExpiresAt || now >= a.idleExpiresAt then Err(Denied)
      else
        var o := a.session.operator;
        var next := Min(now + IDLE_LIFETIME, a.absoluteExpiresAt);
        Ok((s.(sessions := s.sessions[sid := a.(lastUsedAt := Some(now), idleExpiresAt := next)]),
            OperatorSession(o, s.operators[o].roles, a.session.token, a.session.session)))
  }

  datatype Op =
    | CreateOperatorOp(o: string, roles: set<string>)
    | UpdateOperatorOp(o: string, setRoles: Option<set<string>>, setActive: Option<bool>)
    | IssueTokenOp(id: string, verifier: string, o: string, lifetime: int)
    | RotateTokenOp(id: string, newId: string, verifier: string, overlap: int, lifetime: int)
    | RevokeTokenOp(id: string)
    | AuthenticateOp(id: string, verifier: string)
    | CreateSessionOp(id: string, verifier: string, sid: string, sessionVerifier: string, csrf: string)
    | AuthenticateSessionOp(sid: string, verifier: string, suppliedCsrf: Option<string>, requireCsrf: bool)
    | RevokeSessionOp(sid: string)

  function StateOf(r: Result<(State, OperatorSession), Error>): Result<State, Error> {
    match r case Ok((s, _)) => Ok(s) case Err(e) => Err(e)
  }

  function Perform(s: State, op: Op, now: Instant): Result<State, Error> {
    match op
    case CreateOperatorOp(o, roles) => CreateOperator(s, o, roles)
    case UpdateOperatorOp(o, setRoles, setActive) => UpdateOperator(s, o, setRoles, setActive, now)
    case IssueTokenOp(id, verifier, o, lifetime) => IssueToken(s, id, verifier, o, lifetime, now)
    case RotateTokenOp(id, newId, verifier, overlap, lifetime) => RotateToken(s, id, newId, verifier, overlap, lifetime, now)
    case RevokeTokenOp(id) =>
      if id !in s.tokens then Err(NotFound) else Ok(s.(tokens := s.tokens[id := RevokeToken(s.tokens[id], now)]))
    case AuthenticateOp(id, verifier) => StateOf(Authenticate(s, id, verifier, now))
    case CreateSessionOp(id, verifier, sid, sessionVerifier, csrf) => CreateSession(s, id, verifier, sid, sessionVerifier, csrf, now)
    case AuthenticateSessionOp(sid, verifier, csrf, requireCsrf) =>
      StateOf(AuthenticateSession(s, sid, verifier, csrf, requireCsrf, now))
    case RevokeSessionOp(sid) =>
      if sid !in s.sessions then Err(NotFound) else Ok(s.(sessions := s.sessions[sid := RevokeSession(s.sessions[sid], now)]))
  }

  // A rejected call leaves the state alone.
  function After(s: State, op: Op, now: Instant): State {
    match Perform(s, op, now) case Ok(s') => s' case Err(_) => s
  }

  datatype Call = Call(op: Op, now: Instant)

  function Run(s: State, calls: seq<Call>): State
    decreases |calls|
  {
    if calls == [] then s else Run(After(s, calls[0].op, calls[0].now), calls[1..])
  }

  // ---------------------------------------------------------------------------
  // The invariant
  // ---------------------------------------------------------------------------

  // What a live credential of an operator must agree with.
  predicate CarriesCurrentRoles(s: State, session: OperatorSession) {
    Entitled(s, session.operator) && session.roles == s.operators[session.operator].roles
  }

  predicate TokenFits(s: State, id: string)
    requires id in s.tokens
  {
    var t := s.tokens[id];
    && t.session.token == Some(id)
    && t.expiresAt <= t.issuedAt + TOKEN_LIFETIME
    && (t.revokedAt.None? ==> CarriesCurrentRoles(s, t.session))
  }

  function LastActivity(a: AdminSession): Instant {
    if a.lastUsedAt.Some? then a.lastUsedAt.value else a.issuedAt
  }

  predicate SessionFits(s: State, sid: string)
    requires sid in s.sessions
  {
    var a := s.sessions[sid];
    && a.session.session == Some(sid)
    && a.session.token.Some? && a.session.token.value in s.tokens
    && s.tokens[a.session.token.value].session.operator == a.session.operator
    && a.absoluteExpiresAt == a.issuedAt + ABSOLUTE_LIFETIME
    && a.idleExpiresAt == Min(LastActivity(a) + IDLE_LIFETIME, a.absoluteExpiresAt)
    && (a.revokedAt.None? ==> CarriesCurrentRoles(s, a.session))
  }

  predicate Inv(s: State) {
    && (forall o | o in s.operators :: s.operators[o].roles <= VALID_OPERATOR_ROLES)
    && (forall id | id in s.tokens :: TokenFits(s, id))
    && (forall sid | sid in s.sessions :: SessionFits(s, sid))
  }

  lemma StoreOperatorKeeps(s: State, o: string, updated: Operator, at: Instant)
    requires Inv(s) && o in s.operators && updated.roles <= VALID_OPERATOR_ROLES
    ensures Inv(StoreOperator(s, o, updated, at))
  {
    var s' := StoreOperator(s, o, updated, at);
    forall id | id in s'.tokens ensures TokenFits(s', id) {
      assert TokenFits(s, id);
    }
    forall sid | sid in s'.sessions ensures SessionFits(s', sid) {
      assert SessionFits(s, sid);
    }
  }

  // Storing one more, or one changed, token.
  lemma PutTokenKeeps(s: State, id: string, t: Token)
    requires Inv(s)
    requires id in s.tokens ==> s.tokens[id].session == t.session
    requires var s' := s.(tokens := s.tokens[id := t]); TokenFits(s', id)
    ensures Inv(s.(tokens := s.tokens[id := t]))
  {
    var s' := s.(tokens := s.tokens[id := t]);
    forall i | i in s'.tokens ensures TokenFits(s', i) {
      if i != id { assert TokenFits(s, i); }
    }
    forall sid | sid in s'.sessions ensures SessionFits(s', sid) {
      assert SessionFits(s, sid);
    }
  }

  lemma PutSessionKeeps(s: State, sid: string, a: AdminSession)
    requires Inv(s)
    requires SessionFits(s.(sessions := s.sessions[sid := a]), sid)
    ensures Inv(s.(sessions := s.sessions[sid := a]))
  {
    var s' := s.(sessions := s.sessions[sid := a]);
    forall i | i in s'.tokens ensures TokenFits(s', i) {
      assert TokenFits(s, i);
    }
    forall i | i in s'.sessions ensures SessionFits(s', i) {
      if i != sid { assert SessionFits(s, i); }
    }
  }

  lemma RotateKeeps(s: State, id: string, newId: string, verifier: string, overlap: int, lifetime: int, now: Instant)
    requires Inv(s)
    ensures var r := RotateToken(s, id, newId, verifier, overlap, lifetime, now); r.Ok? ==> Inv(r.value)
  {
    if RotateToken(s, id, newId, verifier, overlap, lifetime, now).Ok? {
      var previous := s.tokens[id];
      assert TokenFits(s, id);
      var until := now + Min(overlap, previous.expiresAt - now);
      var shortened := previous.(expiresAt := Min(previous.expiresAt, until));
      PutTokenKeeps(s, id, shortened);
      var o := previous.session.operator;
      PutTokenKeeps(s.(tokens := s.tokens[id := shortened]), newId, NewToken(newId, verifier, o, s.operators[o].roles, lifetime, now));
    }
  }

  lemma AuthenticateKeeps(s: State, id: string, verifier: string, now: Instant)
    requires Inv(s)
    ensures var r := Authenticate(s, id, verifier, now); r.Ok? ==> Inv(r.value.0)
  {
    if Authenticate(s, id, verifier, now).Ok? {
      assert TokenFits(s, id);
      PutTokenKeeps(s, id, s.tokens[id].(lastUsedAt := Some(now)));
    }
  }

  lemma CreateSessionKeeps(s: State, id: string, verifier: string, sid: string, sessionVerifier: string,
          csrf: string, now: Instant)
    requires Inv(s)
    ensures var r := CreateSession(s, id, verifier, sid, sessionVerifier, csrf, now); r.Ok? ==> Inv(r.value)
  {
    var auth := Authenticate(s, id, verifier, now);
    if auth.Ok? && sid !in s.sessions {
      AuthenticateKeeps(s, id, verifier, now);
      assert TokenFits(s, id);
      PutSessionKeeps(auth.value.0, sid, AdminSession(sessionVerifier, csrf, auth.value.1.(session := Some(sid)),
        now + ABSOLUTE_LIFETIME, now + IDLE_LIFETIME, now, None, None));
    }
  }

  lemma AuthenticateSessionKeeps(s: State, sid: string, verifier: string, csrf: Option<string>,
          requireCsrf: bool, now: Instant)
    requires Inv(s)
    ensures var r := AuthenticateSession(s, sid, verifier, csrf, requireCsrf, now); r.Ok? ==> Inv(r.value.0)
  {
    if AuthenticateSession(s, sid, verifier, csrf, requireCsrf, now).Ok? {
      var a := s.sessions[sid];
      assert SessionFits(s, sid);
      PutSessionKeeps(s, sid, a.(lastUsedAt := Some(now), idleExpiresAt := Min(now + IDLE_LIFETIME, a.absoluteExpiresAt)));
    }
  }

  lemma PerformKeeps(s: State, op: Op, now: Instant)
    requires Inv(s)
    ensures Inv(After(s, op, now))
  {
    match op
    case CreateOperatorOp(o, roles) =>
      var s' := After(s, op, now);
      forall id | id in s'.tokens ensures TokenFits(s', id) { assert TokenFits(s, id); }
      forall sid | sid in s'.sessions ensures SessionFits(s', sid) { assert SessionFits(s, sid); }
    case UpdateOperatorOp(o, setRoles, setActive) =>
      if Perform(s, op, now).Ok? {
        StoreOperatorKeeps(s, o, Operator(if setRoles.None? then s.operators[o].roles else setRoles.value,
                                          if setActive.None? then s.operators[o].active else setActive.value), now);
      }
    case IssueTokenOp(id, verifier, o, lifetime) =>
      if Perform(s, op, now).Ok? {
        PutTokenKeeps(s, id, NewToken(id, verifier, o, s.operators[o].roles, lifetime, now));
      }
    case RotateTokenOp(id, newId, verifier, overlap, lifetime) => RotateKeeps(s, id, newId, verifier, overlap, lifetime, now);
    case RevokeTokenOp(id) =>
      if id in s.tokens {
        assert TokenFits(s, id);
        PutTokenKeeps(s, id, RevokeToken(s.tokens[id], now));
      }
    case AuthenticateOp(id, verifier) => AuthenticateKeeps(s, id, verifier, now);
    case CreateSessionOp(id, verifier, sid, sessionVerifier, csrf) => CreateSessionKeeps(s, id, verifier, sid, sessionVerifier, csrf, now);
    case AuthenticateSessionOp(sid, verifier, csrf, requireCsrf) => AuthenticateSessionKeeps(s, sid, verifier, csrf, requireCsrf, now);
    case RevokeSessionOp(sid) =>
      if sid in s.sessions {
        assert SessionFits(s, sid);
        PutSessionKeeps(s, sid, RevokeSession(s.sessions[sid], now));
      }
  }

  lemma {:induction false} RunKeeps(s: State, calls: seq<Call>)
    requires Inv(s)
    ensures Inv(Run(s, calls))
    decreases |calls|
  {
    if calls != [] {
      PerformKeeps(s, calls[0].op, calls[0].now);
      RunKeeps(After(s, calls[0].op, calls[0].now), calls[1..]);
    }
  }

  // ---------------------------------------------------------------------------
  // The results
  // ---------------------------------------------------------------------------

  // In every reachable state a live token or session carries exactly the current roles of an
  // active operator, and the check made when it is read never hides it.
  lemma LiveCredentialsAreCurrent(calls: seq<Call>)
    ensures var s := Run(EMPTY, calls);
            forall id | id in s.tokens && s.tokens[id].revokedAt.None? ::
              GetToken(s, id) == Some(s.tokens[id]) && CarriesCurrentRoles(s, s.tokens[id].session)
    ensures var s := Run(EMPTY, calls);
            forall sid | sid in s.sessions && s.sessions[sid].revokedAt.None? ::
              GetSession(s, sid) == Some(s.sessions[sid]) && CarriesCurrentRoles(s, s.sessions[sid].session)
  {
    RunKeeps(EMPTY, calls);
    var s := Run(EMPTY, calls);
    forall id | id in s.tokens && s.tokens[id].revokedAt.None?
      ensures GetToken(s, id) == Some(s.tokens[id]) && CarriesCurrentRoles(s, s.tokens[id].session)
    {
      assert TokenFits(s, id);
    }
    forall sid | sid in s.sessions && s.sessions[sid].revokedAt.None?
      ensures GetSession(s, sid) == Some(s.sessions[sid]) && CarriesCurrentRoles(s, s.sessions[sid].session)
    {
      assert SessionFits(s, sid);
    }
  }

  // So authentication depends on nothing but the credential's own record: the eager revocation
  // leaves the lazy checks nothing to find.
  lemma AuthenticatesExactly(calls: seq<Call>, id: string, verifier: string, now: Instant)
    ensures var s := Run(EMPTY, calls);
            Authenticate(s, id, verifier, now).Ok? <==>
              id in s.tokens && s.tokens[id].verifier == verifier && s.tokens[id].revokedAt.None? && now < s.tokens[id].expiresAt
    ensures var s := Run(EMPTY, calls);
            Authenticate(s, id, verifier, now).Ok? ==> Authenticate(s, id, verifier, now).value.1 == s.tokens[id].session
  {
    LiveCredentialsAreCurrent(calls);
    RunKeeps(EMPTY, calls);
    var s := Run(EMPTY, calls);
    if id in s.tokens {
      assert TokenFits(s, id);
      NoSessionInTokens(EMPTY, calls, id);
    }
  }

  lemma {:induction false} NoSessionInTokens(s: State, calls: seq<Call>, id: string)
    requires forall i | i in s.tokens :: s.tokens[i].session.session.None?
    requires id in Run(s, calls).tokens
    ensures Run(s, calls).tokens[id].session.session.None?
    decreases |calls|
  {
    if calls != [] {
      NoSessionInTokens(After(s, calls[0].op, calls[0].now), calls[1..], id);
    }
  }

  // A browser session answers for thirty minutes after its last use and eight hours in all.
  lemma SessionAnswersExactly(calls: seq<Call>, sid: string, verifier: string, csrf: Option<string>,
          requireCsrf: bool, now: Instant)
    ensures var s := Run(EMPTY, calls);
            AuthenticateSession(s, sid, verifier, csrf, requireCsrf, now).Ok? <==>
              && sid in s.sessions && s.sessions[sid].verifier == verifier && s.sessions[sid].revokedAt.None?
              && (requireCsrf ==> csrf == Some(s.sessions[sid].csrfVerifier))
              && now < LastActivity(s.sessions[sid]) + IDLE_LIFETIME
              && now < s.sessions[sid].issuedAt + ABSOLUTE_LIFETIME
    ensures var s, r := Run(EMPTY, calls), AuthenticateSession(Run(EMPTY, calls), sid, verifier, csrf, requireCsrf, now);
            r.Ok? ==> r.value.1 == s.sessions[sid].session && r.value.0.sessions[sid].lastUsedAt == Some(now)
  {
    LiveCredentialsAreCurrent(calls);
    RunKeeps(EMPTY, calls);
    var s := Run(EMPTY, calls);
    if sid in s.sessions {
      assert SessionFits(s, sid);
    }
  }

  predicate HasActiveAdmin(s: State) {
    exists o | o in s.operators :: ActiveAdmin(s.operators[o])
  }

  lemma AdminRemains(s: State, op: Op, now: Instant)
    requires HasActiveAdmin(s)
    ensures HasActiveAdmin(After(s, op, now))
  {
    var s' := After(s, op, now);
    var admins := ActiveAdmins(s.operators);
    var witness0 :| witness0 in s.operators && ActiveAdmin(s.operators[witness0]);
    assert witness0 in admins;
    if op.UpdateOperatorOp? && op.o in admins && |admins| > 1 {
      assert |admins - {op.o}| == |admins| - 1;
      var other :| other in admins - {op.o};
      assert ActiveAdmin(s'.operators[other]);
    } else if op.UpdateOperatorOp? && op.o in admins && Perform(s, op, now).Ok? {
      assert |admins| <= 1;
      assert ActiveAdmin(s'.operators[op.o]);
    } else {
      assert ActiveAdmin(s'.operators[witness0]);
    }
  }

  // Once there is an active administrator there always is one.
  lemma {:induction false} AdminAlwaysRemains(s: State, calls: seq<Call>)
    requires HasActiveAdmin(s)
    ensures HasActiveAdmin(Run(s, calls))
    decreases |calls|
  {
    if calls != [] {
      AdminRemains(s, calls[0].op, calls[0].now);
      AdminAlwaysRemains(After(s, calls[0].op, calls[0].now), calls[1..]);
    }
  }

  lemma {:induction false} RevokedStaysRevoked(s: State, calls: seq<Call>)
    ensures forall id | id in s.tokens && s.tokens[id].revokedAt.Some? ::
              id in Run(s, calls).tokens && Run(s, calls).tokens[id].revokedAt == s.tokens[id].revokedAt
    ensures forall sid | sid in s.sessions && s.sessions[sid].revokedAt.Some? ::
              sid in Run(s, calls).sessions && Run(s, calls).sessions[sid].revokedAt == s.sessions[sid].revokedAt
    decreases |calls|
  {
    if calls != [] {
      RevokedStays(s, calls[0].op, calls[0].now);
      RevokedStaysRevoked(After(s, calls[0].op, calls[0].now), calls[1..]);
    }
  }

  lemma RevokedStays(s: State, op: Op, now: Instant)
    ensures forall id | id in s.tokens && s.tokens[id].revokedAt.Some? ::
              id in After(s, op, now).tokens && After(s, op, now).tokens[id].revokedAt == s.tokens[id].revokedAt
    ensures forall sid | sid in s.sessions && s.sessions[sid].revokedAt.Some? ::
              sid in After(s, op, now).sessions && After(s, op, now).sessions[sid].revokedAt == s.sessions[sid].revokedAt
  {
  }

  // After any change of an operator's roles or active state, nothing issued to the operator
  // before it authenticates ever again, whatever happens next.
  lemma ChangeCutsOff(before: seq<Call>, o: string, setRoles: Option<set<string>>, setActive: Option<bool>,
          at: Instant, after: seq<Call>)
    requires var s := Run(EMPTY, before);
             UpdateOperator(s, o, setRoles, setActive, at).Ok? && UpdateOperator(s, o, setRoles, setActive, at).value.operators[o] != s.operators[o]
    ensures var s := Run(EMPTY, before);
            var s' := Run(UpdateOperator(s, o, setRoles, setActive, at).value, after);
            forall id, verifier, now | id in s.tokens && s.tokens[id].session.operator == o :: Authenticate(s', id, verifier, now).Err?
    ensures var s := Run(EMPTY, before);
            var s' := Run(UpdateOperator(s, o, setRoles, setActive, at).value, after);
            forall sid, verifier, csrf, required, now | sid in s.sessions && s.sessions[sid].session.operator == o ::
              AuthenticateSession(s', sid, verifier, csrf, required, now).Err?
  {
    var s := Run(EMPTY, before);
    var s1 := UpdateOperator(s, o, setRoles, setActive, at).value;
    RevokedStaysRevoked(s1, after);
  }

  // Rotation only shortens the old token, to at most the overlap, and adds one token of the same
  // operator with the operator's current roles.
  lemma RotationIsBounded(calls: seq<Call>, id: string, newId: string, verifier: string, overlap: int,
          lifetime: int, now: Instant)
    requires RotateToken(Run(EMPTY, calls), id, newId, verifier, overlap, lifetime, now).Ok?
    ensures var s := Run(EMPTY, calls);
            var s' := RotateToken(s, id, newId, verifier, overlap, lifetime, now).value;
            && id in s.tokens && newId !in s.tokens && s'.tokens.Keys == s.tokens.Keys + {newId}
            && s'.operators == s.operators && s'.sessions == s.sessions
            && now < s'.tokens[id].expiresAt == Min(s.tokens[id].expiresAt, now + overlap)
            && s'.tokens[id] == s.tokens[id].(expiresAt := s'.tokens[id].expiresAt)
            && s'.tokens[newId].session == s.tokens[id].session.(token := Some(newId))
            && now < s'.tokens[newId].expiresAt <= now + TOKEN_LIFETIME
  {
    RunKeeps(EMPTY, calls);
    var s := Run(EMPTY, calls);
    assert TokenFits(s, id);
    NoSessionInTokens(EMPTY, calls, id);
  }
}
