// The operator dictionaries of the in-memory control store, updated in place. Each mutator is
// proved to do what module Operators reasons about.
module OperatorStore {
  import opened Common
  import opened Operators

  class InMemoryOperatorStore {
    var operators: map<string, Operator>
    var tokens: map<string, Token>
    var sessions: map<string, AdminSession>

    constructor ()
      ensures View() == EMPTY
    {
      operators, tokens, sessions := map[], map[], map[];
    }

    function View(): State
      reads this
    {
      State(operators, tokens, sessions)
    }

    method CountActiveOperatorAdmins() returns (n: nat)
      ensures n == |ActiveAdmins(operators)|
    {
      n := 0;
      var rest := operators.Keys;
      ghost var counted: set<string> := {};
      while rest != {}
        invariant rest <= operators.Keys
        invariant counted == set o | o in operators.Keys - rest && ActiveAdmin(operators[o])
        invariant n == |counted|
        decreases |rest|
      {
        var o :| o in rest;
        rest := rest - {o};
        if operators[o].active && ADMIN in operators[o].roles {
          n := n + 1;
          counted := counted + {o};
        }
      }
      assert counted == ActiveAdmins(operators);
    }

    method UpdateOperator(o: string, roles: set<string>, active: bool, at: Instant) returns (ok: bool)
      modifies this
      ensures ok == (o in old(operators))
      ensures View() == if ok then StoreOperator(old(View()), o, Operator(roles, active), at) else old(View())
    {
      if o !in operators { return false; }
      var current := operators[o];
      operators := operators[o := Operator(roles, active)];
      if current.roles != roles || current.active != active {
        RevokeTokensOf(o, at);
        RevokeSessionsOf(o, at);
      }
      return true;
    }

    method RevokeTokensOf(o: string, at: Instant)
      modifies this`tokens
      ensures tokens == Operators.RevokeTokensOf(old(tokens), o, at)
    {
      var rest := tokens.Keys;
      while rest != {}
        invariant rest <= old(tokens).Keys == tokens.Keys
        invariant forall id | id in tokens ::
          tokens[id] == if id in rest then old(tokens)[id] else Operators.RevokeTokensOf(old(tokens), o, at)[id]
        decreases |rest|
      {
        var id :| id in rest;
        rest := rest - {id};
        var token := tokens[id];
        if token.session.operator == o && token.revokedAt.None? {
          tokens := tokens[id := token.(revokedAt := Some(at))];
        }
      }
    }

    method RevokeSessionsOf(o: string, at: Instant)
      modifies this`sessions
      ensures sessions == Operators.RevokeSessionsOf(old(sessions), o, at)
    {
      var rest := sessions.Keys;
      while rest != {}
        invariant rest <= old(sessions).Keys == sessions.Keys
        invariant forall id | id in sessions ::
          sessions[id] == if id in rest then old(sessions)[id] else Operators.RevokeSessionsOf(old(sessions), o, at)[id]
        decreases |rest|
      {
        var id :| id in rest;
        rest := rest - {id};
        var session := sessions[id];
        if session.session.operator == o && session.revokedAt.None? {
          sessions := sessions[id := session.(revokedAt := Some(at))];
        }
      }
    }

    // The guarded update: the last active administrator cannot be demoted or disabled.
    method ChangeOperator(o: string, setRoles: Option<set<string>>, setActive: Option<bool>,
            now: Instant) returns (ok: bool)
      modifies this
      ensures ok == Operators.UpdateOperator(old(View()), o, setRoles, setActive, now).Ok?
      ensures View() == After(old(View()), UpdateOperatorOp(o, setRoles, setActive), now)
    {
      if o !in operators || (setRoles.None? && setActive.None?) { return false; }
      var current := operators[o];
      var roles := if setRoles.None? then current.roles else setRoles.value;
      var active := if setActive.None? then current.active else setActive.value;
      if !(roles <= VALID_OPERATOR_ROLES) { return false; }
      if current.active && ADMIN in current.roles && (!active || ADMIN !in roles) {
        var admins := CountActiveOperatorAdmins();
        if admins <= 1 { return false; }
      }
      ok := UpdateOperator(o, roles, active, now);
    }

    method RotateToken(id: string, newId: string, verifier: string, overlap: int, lifetime: int,
            now: Instant) returns (ok: bool)
      modifies this`tokens
      ensures ok == Operators.RotateToken(old(View()), id, newId, verifier, overlap, lifetime, now).Ok?
      ensures View() == After(old(View()), RotateTokenOp(id, newId, verifier, overlap, lifetime), now)
    {
      if overlap <= 0 || overlap > MAXIMUM_OVERLAP { return false; }
      var found := GetToken(View(), id);
      if found.None? || found.value.revokedAt.Some? || found.value.expiresAt <= now { return false; }
      if !LifetimeAllowed(lifetime) || newId in tokens { return false; }
      var previous := found.value;
      var until := now + Min(overlap, previous.expiresAt - now);
      tokens := tokens[id := previous.(expiresAt := Min(previous.expiresAt, until))];
      var o := previous.session.operator;
      tokens := tokens[newId := NewToken(newId, verifier, o, operators[o].roles, lifetime, now)];
      return true;
    }

    method AuthenticateSession(sid: string, verifier: string, csrf: Option<string>, requireCsrf: bool, now: Instant)
      returns (session: Option<OperatorSession>)
      modifies this`sessions
      ensures session == match Operators.AuthenticateSession(old(View()), sid, verifier, csrf, requireCsrf, now)
                         case Ok((_, answer)) => Some(answer) case Err(_) => None
      ensures View() == After(old(View()), AuthenticateSessionOp(sid, verifier, csrf, requireCsrf), now)
    {
      var found := GetSession(View(), sid);
      if found.None? || found.value.verifier != verifier { return None; }
      var a := found.value;
      if requireCsrf && (csrf.None? || a.csrfVerifier != csrf.value) { return None; }
      if a.revokedAt.Some? || now >= a.absoluteExpiresAt || now >= a.idleExpiresAt { return None; }
      sessions := sessions[sid := a.(lastUsedAt := Some(now), idleExpiresAt := Min(now + IDLE_LIFETIME, a.absoluteExpiresAt))];
      return Some(OperatorSession(a.session.operator, operators[a.session.operator].roles, a.session.token, a.session.session));
    }
  }
}
