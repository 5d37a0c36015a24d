// The in-memory control store: dictionaries updated in place by hand-written cascades. Each
// mutator is proved to compute the cascade that module Control reasons about.
module ControlStore {
  import opened Common
  import opened Control

  class InMemoryControlStore {
    var tenants: map<string, Tenant>
    var principals: map<string, Principal>
    var memberships: map<(string, string), Membership>
    var delegations: map<string, Delegation>
    var bindings: map<(string, string), Binding>
    var tokens: map<string, Token>
    var lifetimeDays: map<(string, Kind, bool), int>

    constructor ()
      ensures View() == EMPTY
    {
      tenants, principals, memberships, delegations := map[], map[], map[], map[];
      bindings, tokens, lifetimeDays := map[], map[], map[];
    }

    function View(): State
      reads this
    {
      State(tenants, principals, memberships, delegations, bindings, tokens, lifetimeDays)
    }

    // ------------------------------------------------------------------
    // The loops of the cascades
    // ------------------------------------------------------------------

    method RevokeMatchingTokens(m: Match, at: Instant)
      modifies this`tokens
      ensures tokens == RevokeMatching(old(tokens), m, at)
    {
      var rest := tokens.Keys;
      while rest != {}
        invariant rest <= old(tokens).Keys == tokens.Keys
        invariant forall id | id in tokens ::
          tokens[id] == if id in rest then old(tokens)[id] else RevokeMatching(old(tokens), m, at)[id]
        decreases |rest|
      {
        var id :| id in rest;
        rest := rest - {id};
        var record := tokens[id];
        if Matches(m, record.session) && record.revokedAt.None? {
          tokens := tokens[id := record.(revokedAt := Some(at))];
        }
      }
    }

    method SuspendMembershipsOf(p: string)
      modifies this`memberships
      ensures memberships == SuspendMemberships(old(memberships), p)
    {
      var rest := memberships.Keys;
      while rest != {}
        invariant rest <= old(memberships).Keys == memberships.Keys
        invariant forall k | k in memberships ::
          memberships[k] == if k in rest then old(memberships)[k] else SuspendMemberships(old(memberships), p)[k]
        decreases |rest|
      {
        var k :| k in rest;
        rest := rest - {k};
        if k.1 == p {
          memberships := memberships[k := memberships[k].(active := false)];
        }
      }
    }

    method SuspendDelegationsIn(ids: set<string>)
      requires ids <= delegations.Keys
      modifies this`delegations
      ensures delegations == SuspendDelegations(old(delegations), ids)
    {
      var rest := ids;
      while rest != {}
        invariant rest <= ids && delegations.Keys == old(delegations).Keys
        invariant forall d | d in delegations ::
          delegations[d] == if d in rest then old(delegations)[d] else SuspendDelegations(old(delegations), ids)[d]
        decreases |rest|
      {
        var d :| d in rest;
        rest := rest - {d};
        delegations := delegations[d := delegations[d].(active := false)];
      }
    }

    method SuspendBindingsOf(ids: set<string>, p: Option<string>)
      modifies this`bindings
      ensures bindings == SuspendBindings(old(bindings), ids, p)
    {
      var rest := bindings.Keys;
      while rest != {}
        invariant rest <= old(bindings).Keys == bindings.Keys
        invariant forall k | k in bindings ::
          bindings[k] == if k !in rest && Affected(old(bindings)[k], ids, p)
                         then old(bindings)[k].(active := false) else old(bindings)[k]
        decreases |rest|
      {
        var k :| k in rest;
        rest := rest - {k};
        if Affected(bindings[k], ids, p) {
          bindings := bindings[k := bindings[k].(active := false)];
        }
      }
    }

    // ------------------------------------------------------------------
    // The mutators
    // ------------------------------------------------------------------

    method DisablePrincipal(p: string, at: Instant) returns (r: Result<Principal, Error>)
      modifies this
      ensures p !in old(principals) ==> r == Err(NotFound) && View() == old(View())
      ensures p in old(principals) ==>
        View() == Control.DisablePrincipal(old(View()), p, at) && r == Ok(principals[p])
    {
      if p !in principals {
        return Err(NotFound);
      }
      var disabled := principals[p].(active := false);
      principals := principals[p := disabled];
      SuspendMembershipsOf(p);
      var affected := set d | d in delegations && (delegations[d].agent == p || delegations[d].subject == p);
      SuspendDelegationsIn(affected);
      SuspendBindingsOf(affected, Some(p));
      RevokeMatchingTokens(OfPrincipal(p), at);
      r := Ok(disabled);
    }

    method UpdatePrincipal(p: string, active: bool, at: Instant) returns (r: Result<Principal, Error>)
      modifies this
      ensures p !in old(principals) ==> r == Err(NotFound) && View() == old(View())
      ensures p in old(principals) ==>
        View() == Control.UpdatePrincipal(old(View()), p, active, at) && r == Ok(principals[p])
    {
      if p !in principals {
        return Err(NotFound);
      }
      var current := principals[p];
      if !active {
        var disabled := DisablePrincipal(p, at);
        current := disabled.value;
      }
      var updated := current.(active := active);
      principals := principals[p := updated];
      r := Ok(updated);
    }

    method DisableMembership(t: string, p: string, at: Instant) returns (r: Result<Membership, Error>)
      modifies this
      ensures (t, p) !in old(memberships) ==> r == Err(NotFound) && View() == old(View())
      ensures (t, p) in old(memberships) ==>
        View() == Control.DisableMembership(old(View()), t, p, at) && r == Ok(memberships[(t, p)])
    {
      if (t, p) !in memberships {
        return Err(NotFound);
      }
      var disabled := memberships[(t, p)].(active := false);
      memberships := memberships[(t, p) := disabled];
      var affected := set d | d in delegations && delegations[d].tenant == t
                              && (delegations[d].agent == p || delegations[d].subject == p);
      assert affected == DelegationsIn(old(View()), t, p);
      SuspendDelegationsIn(affected);
      SuspendBindingsOf(affected, None);
      RevokeMatchingTokens(OfMember(t, p), at);
      r := Ok(disabled);
    }

    method UpdateMembership(t: string, p: string, m: Membership, at: Instant) returns (r: Result<Membership, Error>)
      modifies this
      ensures (t, p) !in old(memberships) ==> r == Err(NotFound) && View() == old(View())
      ensures (t, p) in old(memberships) ==>
        View() == Control.UpdateMembership(old(View()), t, p, m, at) && r == Ok(m)
    {
      if (t, p) !in memberships {
        return Err(NotFound);
      }
      var current := memberships[(t, p)];
      var updated := m;
      if !m.active {
        var disabled := DisableMembership(t, p, at);
        updated := disabled.value.(roles := m.roles);
      }
      memberships := memberships[(t, p) := updated];
      if updated.roles != current.roles || updated.active != current.active {
        RevokeMatchingTokens(OfActor(t, p), at);
      }
      r := Ok(updated);
    }

    method RevokeMembershipRole(t: string, p: string, role: Role, at: Instant) returns (r: Result<Membership, Error>)
      modifies this
      ensures r.Err? <==> (t, p) !in old(memberships) || role !in old(memberships)[(t, p)].roles
      ensures r.Err? ==> r.error == NotFound && View() == old(View())
      ensures r.Ok? ==> View() == RevokeRole(old(View()), t, p, role, at) && r == Ok(memberships[(t, p)])
    {
      if (t, p) !in memberships || role !in memberships[(t, p)].roles {
        return Err(NotFound);
      }
      var remaining := memberships[(t, p)].roles - {role};
      if remaining == {} {
        r := DisableMembership(t, p, at);
        return;
      }
      var updated := memberships[(t, p)].(roles := remaining);
      memberships := memberships[(t, p) := updated];
      RevokeMatchingTokens(OfActor(t, p), at);
      r := Ok(updated);
    }

    method RevokeDelegation(d: string, at: Instant) returns (r: Result<Delegation, Error>)
      modifies this
      ensures d !in old(delegations) ==> r == Err(NotFound) && View() == old(View())
      ensures d in old(delegations) ==>
        View() == Control.RevokeDelegation(old(View()), d, at) && r == Ok(delegations[d])
    {
      if d !in delegations {
        return Err(NotFound);
      }
      SuspendDelegationsIn({d});
      SuspendBindingsOf({d}, None);
      RevokeMatchingTokens(OfDelegation(d), at);
      r := Ok(delegations[d]);
    }

    method UpdateDelegationActive(d: string, active: bool, at: Instant) returns (r: Result<Delegation, Error>)
      modifies this
      ensures d !in old(delegations) ==> r == Err(NotFound) && View() == old(View())
      ensures d in old(delegations) && !active ==> View() == Control.RevokeDelegation(old(View()), d, at)
      ensures d in old(delegations) && active ==>
        View() == old(View()).(delegations := old(delegations)[d := old(delegations)[d].(active := true)])
      ensures r.Ok? ==> r == Ok(delegations[d])
    {
      if d !in delegations {
        return Err(NotFound);
      }
      if !active {
        r := RevokeDelegation(d, at);
        return;
      }
      delegations := delegations[d := delegations[d].(active := true)];
      r := Ok(delegations[d]);
    }

    // Saves the replacement and shortens the previous token, or changes nothing.
    method Rotate(id: string, newId: string, replacement: Token, until: Instant, at: Instant) returns (ok: bool)
      modifies this`tokens
      ensures ok <==>
        && GetToken(old(View()), id).Some?
        && old(tokens)[id].revokedAt.None? && old(tokens)[id].expiresAt > at && newId !in old(tokens)
      ensures !ok ==> tokens == old(tokens)
      ensures ok ==>
        tokens == old(tokens)[id := old(tokens)[id].(expiresAt := Min(old(tokens)[id].expiresAt, until))][newId := replacement]
    {
      var previous := GetToken(View(), id);
      if previous.None? || previous.value.revokedAt.Some? || previous.value.expiresAt <= at || newId in tokens {
        return false;
      }
      tokens := tokens[id := previous.value.(expiresAt := Min(previous.value.expiresAt, until))];
      tokens := tokens[newId := replacement];
      ok := true;
    }

    method Revoke(id: string, at: Instant) returns (found: bool)
      modifies this`tokens
      ensures found <==> id in old(tokens)
      ensures tokens == if found then old(tokens)[id := RevokeToken(old(tokens)[id], at)] else old(tokens)
    {
      if id !in tokens {
        return false;
      }
      if tokens[id].revokedAt.None? {
        tokens := tokens[id := tokens[id].(revokedAt := Some(at))];
      } else {
        assert tokens[id := tokens[id]] == tokens;
      }
      found := true;
    }
  }
}
