// When each operator call is accepted and what exactly it leaves behind, with every lifetime and
// role written out. Instants are in microseconds.
module OperatorExact {
  import opened Common
  import opened Operators

  predicate AreOperatorRoles(roles: set<string>) {
    forall r | r in roles ::
      || r == "operator_admin" || r == "identity_admin" || r == "tenant_provisioner" || r == "tenant_support"
      || r == "knowledge_admin" || r == "token_admin" || r == "audit_viewer"
  }

  lemma RolesSpelledOut(roles: set<string>)
    ensures roles <= VALID_OPERATOR_ROLES <==> AreOperatorRoles(roles)
  {
    assert forall r :: r in VALID_OPERATOR_ROLES <==> AreOperatorRoles({r});
  }

  lemma CreateOperatorExactly(s: State, o: string, roles: set<string>)
    ensures var r := CreateOperator(s, o, roles);
            && (r.Ok? <==> AreOperatorRoles(roles) && o !in s.operators)
            && (r.Ok? ==> r.value == State(s.operators[o := Operator(roles, true)], s.tokens, s.sessions))
            && (r.Err? ==> r.error == if AreOperatorRoles(roles) then Conflict else Invalid)
  {
    RolesSpelledOut(roles);
  }

  // Every live token and session of the operator is revoked at this moment, and no other.
  predicate CutOff(s: State, s': State, o: string, at: Instant) {
    && s'.tokens.Keys == s.tokens.Keys && s'.sessions.Keys == s.sessions.Keys
    && (forall id | id in s.tokens ::
          s'.tokens[id] == if s.tokens[id].session.operator == o && s.tokens[id].revokedAt.None?
                           then s.tokens[id].(revokedAt := Some(at)) else s.tokens[id])
    && (forall id | id in s.sessions ::
          s'.sessions[id] == if s.sessions[id].session.operator == o && s.sessions[id].revokedAt.None?
                             then s.sessions[id].(revokedAt := Some(at)) else s.sessions[id])
  }

  // Nobody else is an active administrator.
  predicate IsLastAdmin(s: State, o: string)
    requires o in s.operators
  {
    && s.operators[o].active && "operator_admin" in s.operators[o].roles
    && forall p | p in s.operators && p != o :: !(s.operators[p].active && "operator_admin" in s.operators[p].roles)
  }

  lemma LastAdminCounted(s: State, o: string)
    requires o in s.operators && ActiveAdmin(s.operators[o])
    ensures |ActiveAdmins(s.operators)| <= 1 <==> IsLastAdmin(s, o)
  {
    var admins := ActiveAdmins(s.operators);
    assert o in admins;
    if |admins| <= 1 {
      assert |admins - {o}| == 0;
      forall p | p in s.operators && p != o ensures !ActiveAdmin(s.operators[p]) {
        assert p !in admins - {o};
      }
    } else {
      assert |admins - {o}| == |admins| - 1;
      var p :| p in admins - {o};
      assert p in s.operators && ActiveAdmin(s.operators[p]);
    }
  }

  // An update is accepted exactly if it asks for something, names only known roles and does not
  // take the last active administrator away; an update that changes something cuts the operator
  // off from everything issued before.
  lemma UpdateOperatorExactly(s: State, o: string, setRoles: Option<set<string>>, setActive: Option<bool>, now: Instant)
    requires o in s.operators
    ensures var r := UpdateOperator(s, o, setRoles, setActive, now);
            var roles := if setRoles.Some? then setRoles.value else s.operators[o].roles;
            var active := if setActive.Some? then setActive.value else s.operators[o].active;
            && (r.Ok? <==>
                  && (setRoles.Some? || setActive.Some?) && AreOperatorRoles(roles)
                  && (IsLastAdmin(s, o) ==> active && "operator_admin" in roles))
            && (r.Ok? ==>
                  && r.value.operators == s.operators[o := Operator(roles, active)]
                  && if roles == s.operators[o].roles && active == s.operators[o].active then
                       r.value.tokens == s.tokens && r.value.sessions == s.sessions
                     else CutOff(s, r.value, o, now))
            && (r.Err? ==> r.error == Invalid)
  {
    RolesSpelledOut(if setRoles.Some? then setRoles.value else s.operators[o].roles);
    if ActiveAdmin(s.operators[o]) { LastAdminCounted(s, o); }
  }

  // A token is issued to an active operator with roles, for more than nothing and at most 30 days,
  // and lives exactly as long as asked for.
  lemma IssueTokenExactly(s: State, id: string, verifier: string, o: string, lifetime: int, now: Instant)
    ensures var r := IssueToken(s, id, verifier, o, lifetime, now);
            var known := o in s.operators && s.operators[o].active;
            && (r.Ok? <==> known && s.operators[o].roles != {} && 0 < lifetime <= 2_592_000_000_000 && id !in s.tokens)
            && (r.Ok? ==>
                  r.value == State(s.operators,
                                   s.tokens[id := Token(verifier, OperatorSession(o, s.operators[o].roles, Some(id), None),
                                                        now + lifetime, now, None, None)], s.sessions))
            && (r.Err? ==> r.error == if !known then NotFound else if s.operators[o].roles == {} then Denied
                                      else if 0 < lifetime <= 2_592_000_000_000 then Conflict else Invalid)
  {
  }

  predicate IsAnswered(s: State, o: string) {
    o in s.operators && s.operators[o].active && s.operators[o].roles != {}
  }

  predicate CanRotate(s: State, id: string, now: Instant) {
    id in s.tokens && IsAnswered(s, s.tokens[id].session.operator) && s.tokens[id].revokedAt.None? && now < s.tokens[id].expiresAt
  }

  // Rotation needs an overlap of more than nothing and at most 24 hours and a live token of an
  // active operator. The old token then ends with the overlap if that is earlier, and the new one
  // carries the operator's roles of now.
  lemma RotateTokenExactly(s: State, id: string, newId: string, verifier: string, overlap: int, lifetime: int, now: Instant)
    ensures var r := RotateToken(s, id, newId, verifier, overlap, lifetime, now);
            && (r.Ok? <==>
                  && 0 < overlap <= 86_400_000_000 && CanRotate(s, id, now)
                  && 0 < lifetime <= 2_592_000_000_000 && newId !in s.tokens)
            && (r.Ok? ==>
                  var before, o := s.tokens[id], s.tokens[id].session.operator;
                  && r.value.operators == s.operators && r.value.sessions == s.sessions
                  && r.value.tokens.Keys == s.tokens.Keys + {newId}
                  && r.value.tokens[id] == before.(expiresAt := if now + overlap < before.expiresAt then now + overlap else before.expiresAt)
                  && r.value.tokens[newId] == Token(verifier, OperatorSession(o, s.operators[o].roles, Some(newId), None),
                                                    now + lifetime, now, None, None)
                  && forall i | i in s.tokens && i != id :: r.value.tokens[i] == s.tokens[i])
  {
  }

  // A token answers for its operator's current roles, and only its time of use is noted.
  lemma AuthenticateNotes(s: State, id: string, verifier: string, now: Instant)
    ensures var r := Authenticate(s, id, verifier, now);
            && (r.Ok? <==> CanRotate(s, id, now) && s.tokens[id].verifier == verifier)
            && (r.Ok? ==>
                  var o := s.tokens[id].session.operator;
                  && r.value.0 == State(s.operators, s.tokens[id := s.tokens[id].(lastUsedAt := Some(now))], s.sessions)
                  && r.value.1 == OperatorSession(o, s.operators[o].roles, s.tokens[id].session.token, None))
            && (r.Err? ==> r.error == Denied)
  {
  }

  // A browser session opens with a token that answers; it is idle after thirty minutes and over
  // after eight hours.
  lemma CreateSessionExactly(s: State, id: string, verifier: string, sid: string, sessionVerifier: string, csrf: string, now: Instant)
    ensures var r := CreateSession(s, id, verifier, sid, sessionVerifier, csrf, now);
            var answers := CanRotate(s, id, now) && s.tokens[id].verifier == verifier;
            && (r.Ok? <==> answers && sid !in s.sessions)
            && (r.Ok? ==>
                  var o := s.tokens[id].session.operator;
                  r.value == State(s.operators, s.tokens[id := s.tokens[id].(lastUsedAt := Some(now))],
                                   s.sessions[sid := AdminSession(sessionVerifier, csrf,
                                                OperatorSession(o, s.operators[o].roles, s.tokens[id].session.token, Some(sid)),
                                                now + 28_800_000_000, now + 1_800_000_000, now, None, None)]))
            && (r.Err? ==> r.error == if answers then Conflict else Denied)
  {
  }

  // A session answers before both its ends, with its secret and, where required, its CSRF secret.
  // Each use moves the idle end to thirty minutes from now, but never past the absolute end.
  lemma AuthenticateSessionExactly(s: State, sid: string, verifier: string, csrf: Option<string>, requireCsrf: bool, now: Instant)
    ensures var r := AuthenticateSession(s, sid, verifier, csrf, requireCsrf, now);
            && (r.Ok? <==>
                  && sid in s.sessions && IsAnswered(s, s.sessions[sid].session.operator)
                  && s.sessions[sid].verifier == verifier && (requireCsrf ==> csrf == Some(s.sessions[sid].csrfVerifier))
                  && s.sessions[sid].revokedAt.None? && now < s.sessions[sid].absoluteExpiresAt && now < s.sessions[sid].idleExpiresAt)
            && (r.Ok? ==>
                  var a := s.sessions[sid];
                  var idle := if now + 1_800_000_000 < a.absoluteExpiresAt then now + 1_800_000_000 else a.absoluteExpiresAt;
                  && r.value.0 == State(s.operators, s.tokens, s.sessions[sid := a.(lastUsedAt := Some(now), idleExpiresAt := idle)])
                  && r.value.1 == OperatorSession(a.session.operator, s.operators[a.session.operator].roles, a.session.token, a.session.session))
            && (r.Err? ==> r.error == Denied)
  {
  }

  // Revoking is final: a credential already revoked keeps its time.
  lemma RevokeExactly(s: State, op: Op, id: string, now: Instant)
    requires op == RevokeTokenOp(id) || op == RevokeSessionOp(id)
    ensures var s' := After(s, op, now);
            && s'.operators == s.operators
            && (op.RevokeTokenOp? ==>
                  && s'.sessions == s.sessions && s'.tokens.Keys == s.tokens.Keys
                  && forall i | i in s.tokens ::
                       s'.tokens[i] == if i == id && s.tokens[i].revokedAt.None? then s.tokens[i].(revokedAt := Some(now)) else s.tokens[i])
            && (op.RevokeSessionOp? ==>
                  && s'.tokens == s.tokens && s'.sessions.Keys == s.sessions.Keys
                  && forall i | i in s.sessions ::
                       s'.sessions[i] == if i == id && s.sessions[i].revokedAt.None? then s.sessions[i].(revokedAt := Some(now)) else s.sessions[i])
  {
  }
}
