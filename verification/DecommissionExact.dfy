// When each decommission call is accepted and what exactly it leaves behind, in terms of the
// stored records, the evidence and the port calls alone.
module DecommissionExact {
  import opened Common
  import opened Decommission

  predicate Goes(fates: Fates, a: Action) {
    a in fates.ofAction ==> fates.ofAction[a] == Succeeds
  }

  predicate Answers(fates: Fates, a: Action, fate: Fate) {
    a in fates.ofAction && fates.ofAction[a] == fate
  }

  predicate Known(s: State, id: string, tenant: string) {
    id in s.records && s.records[id].resources.tenant == tenant
  }

  // Nothing but the record and the history of request `id` is touched.
  ghost predicate OnlyThis(s: State, s': State, id: string) {
    && s'.tombstones == s.tombstones
    && (forall i | i != id :: (i in s'.records <==> i in s.records) && (i in s.records ==> s'.records[i] == s.records[i]))
    && (forall i | i != id :: (i in s'.log <==> i in s.log) && (i in s.log ==> s'.log[i] == s.log[i]))
  }

  // ---------------------------------------------------------------------------
  // Confirmation
  // ---------------------------------------------------------------------------

  predicate MayConfirm(s: State, id: string, tenant: string, actor: string, at: Instant) {
    && Known(s, id, tenant)
    && actor != s.records[id].requestedBy && s.records[id].phase == Suspended && s.records[id].requestedAt <= at
  }

  // A confirmation starts the grace period exactly when somebody other than the requester makes
  // it, on a suspended request and not before it was made, with evidence that is complete, of
  // verified integrity and verified by then - a backup no older than the policy allows and not
  // from the future, or an accepted export - and the artifact itself can be verified.
  lemma {:induction false} ConfirmExactly(s: State, policy: Policy, id: string, tenant: string, actor: string,
          e: Evidence, at: Instant, fates: Fates)
    requires id in s.records ==> s.records[id].id == id
    ensures var (s', reply) := Confirm(s, policy, id, tenant, actor, e, at, fates);
            var trusted := && e.complete && e.integrityVerified && e.verifiedAt <= at
                           && (e.isBackup ==> 0 <= at - e.createdAt <= policy.backupMaxAge)
                           && (!e.isBackup ==> e.explicitlyAccepted);
            && (s' != s <==> MayConfirm(s, id, tenant, actor, at) && trusted && Goes(fates, VerifyEvidence))
            && (s' != s ==>
                  var r, r' := s.records[id], reply.record;
                  && reply.Accepted?
                  && r' == r.(phase := Grace, confirmedBy := Some(actor), confirmedAt := Some(at), evidence := Some(e),
                              graceEndsAt := Some(at + policy.gracePeriod), lastFailed := None, revision := r.revision + 1)
                  && s'.records == s.records[id := r'] && s'.tombstones == s.tombstones
                  && s'.log == s.log[id := (if id in s.log then s.log[id] else []) + [Confirmed(actor, at, e)]])
            && (s' == s ==>
                  && (reply.Accepted? <==>
                        && Known(s, id, tenant) && actor != s.records[id].requestedBy && s.records[id].phase == Grace
                        && s.records[id].confirmedBy == Some(actor) && s.records[id].evidence == Some(e))
                  && (reply.Accepted? ==> reply.record == s.records[id]))
            && (reply == NotReady <==>
                  MayConfirm(s, id, tenant, actor, at) && (!trusted || Answers(fates, VerifyEvidence, Refuses)))
            && (reply == Failed(VerifyEvidence) <==>
                  MayConfirm(s, id, tenant, actor, at) && trusted && Answers(fates, VerifyEvidence, Raises))
  {
    if MayConfirm(s, id, tenant, actor, at) {
      var (s', reply) := Confirm(s, policy, id, tenant, actor, e, at, fates);
      if id in s'.records && s'.records[id].phase == Grace { assert s'.records[id] != s.records[id]; }
    }
  }

  // ---------------------------------------------------------------------------
  // The steps of suspension and destruction
  // ---------------------------------------------------------------------------

  // A record after some of its steps: nothing else of it has changed.
  predicate Stepped(r: Record, r': Record, part: Part) {
    r' == if part == Suspend then r.(suspension := r'.suspension, lastFailed := r'.lastFailed, revision := r'.revision)
          else r.(destruction := r'.destruction, lastFailed := r'.lastFailed, revision := r'.revision)
  }

  // The j-th step is the first that is neither recorded nor goes through.
  predicate StopsAt(r: Record, part: Part, k: nat, j: nat, fates: Fates, reply: Reply) {
    && k <= j < |Order(part)|
    && (forall i | k <= i < j :: Order(part)[i] in Completed(r, part) || Goes(fates, Order(part)[i]))
    && Order(part)[j] !in Completed(r, part) && !Goes(fates, Order(part)[j])
    && reply == if Answers(fates, Order(part)[j], Refuses) || Answers(fates, Order(part)[j], Raises)
                then Failed(Order(part)[j]) else Died
  }

  ghost predicate StepsLeave(s: State, r: Record, part: Part, k: nat, fates: Fates, p: Progress) {
    && OnlyThis(s, p.s, r.id) && r.id in p.s.records && Stepped(r, p.s.records[r.id], part)
    && (p.Through? ==>
          && p.r == p.s.records[r.id]
          && (forall j | k <= j < |Order(part)| :: Order(part)[j] in Completed(r, part) || Goes(fates, Order(part)[j]))
          && (forall a :: a in Completed(p.r, part) <==> a in Completed(r, part) || exists j :: k <= j < |Order(part)| && Order(part)[j] == a))
    && (p.Halted? ==> exists j :: StopsAt(r, part, k, j, fates, p.reply))
  }

  lemma Distinct(part: Part, i: nat, j: nat)
    requires i < j < |Order(part)|
    ensures Order(part)[i] != Order(part)[j]
  {
  }

  lemma {:induction false} StepsExactly(s: State, r: Record, part: Part, k: nat, fates: Fates)
    requires k <= |Order(part)| && r.id in s.records && s.records[r.id] == r
    ensures StepsLeave(s, r, part, k, fates, RunSteps(s, r, part, k, fates))
    decreases |Order(part)| - k
  {
    if k < |Order(part)| {
      var a := Order(part)[k];
      if a in Completed(r, part) {
        StepsExactly(s, r, part, k + 1, fates);
        Skipped(s, r, part, k, fates, RunSteps(s, r, part, k + 1, fates));
      } else if Goes(fates, a) {
        var p := Save(Note(s, r.id, Ran(a, true)), Complete(r, part, a));
        StepsExactly(p.s, p.r, part, k + 1, fates);
        Taken(s, r, part, k, fates, RunSteps(p.s, p.r, part, k + 1, fates));
      } else {
        assert StopsAt(r, part, k, k, fates, RunSteps(s, r, part, k, fates).reply);
      }
    }
  }

  lemma Skipped(s: State, r: Record, part: Part, k: nat, fates: Fates, p: Progress)
    requires k < |Order(part)| && Order(part)[k] in Completed(r, part) && StepsLeave(s, r, part, k + 1, fates, p)
    ensures StepsLeave(s, r, part, k, fates, p)
  {
    if p.Halted? {
      var j :| StopsAt(r, part, k + 1, j, fates, p.reply);
      assert StopsAt(r, part, k, j, fates, p.reply);
    } else {
      forall a ensures a in Completed(p.r, part) <==> a in Completed(r, part) || exists j :: k <= j < |Order(part)| && Order(part)[j] == a {
        if j :| k <= j < |Order(part)| && Order(part)[j] == a { assert j == k || j > k; }
      }
    }
  }

  lemma Taken(s: State, r: Record, part: Part, k: nat, fates: Fates, p: Progress)
    requires k < |Order(part)| && Order(part)[k] !in Completed(r, part) && Goes(fates, Order(part)[k])
    requires r.id in s.records && s.records[r.id] == r
    requires var a := Order(part)[k];
             var q := Save(Note(s, r.id, Ran(a, true)), Complete(r, part, a));
             q.Through? && StepsLeave(q.s, q.r, part, k + 1, fates, p)
    ensures StepsLeave(s, r, part, k, fates, p)
  {
    var a := Order(part)[k];
    var q := Save(Note(s, r.id, Ran(a, true)), Complete(r, part, a));
    assert forall b :: b in Completed(q.r, part) <==> b in Completed(r, part) || b == a;
    forall j | k < j < |Order(part)| ensures Order(part)[j] != a { Distinct(part, k, j); }
    if p.Halted? {
      var j :| StopsAt(q.r, part, k + 1, j, fates, p.reply);
      assert StopsAt(r, part, k, j, fates, p.reply);
    } else {
      forall b ensures b in Completed(p.r, part) <==> b in Completed(r, part) || exists j :: k <= j < |Order(part)| && Order(part)[j] == b {
        if j :| k <= j < |Order(part)| && Order(part)[j] == b { assert j == k || j > k; }
      }
    }
  }

  // ---------------------------------------------------------------------------
  // Request
  // ---------------------------------------------------------------------------

  predicate SameRequest(s: State, id: string, resources: Resources, actor: string, reason: string, policyName: string) {
    && id in s.records
    && s.records[id].resources == resources && s.records[id].requestedBy == actor
    && s.records[id].reason == reason && s.records[id].policyName == policyName
  }

  predicate IsNew(s: State, id: string, tenant: string) {
    && id !in s.records && id !in s.tombstones
    && forall i | i in s.records && s.records[i].resources.tenant == tenant :: s.records[i].phase == Cancelled
  }

  predicate AllSuspended(suspension: seq<Action>) {
    SuspendSessions in suspension && BlockTokenIssuance in suspension && RevokeCredentials in suspension
  }

  predicate Passes(done: seq<Action>, fates: Fates, a: Action) {
    a in done || Goes(fates, a)
  }

  predicate CanSuspend(done: seq<Action>, fates: Fates) {
    && Passes(done, fates, SuspendSessions) && Passes(done, fates, BlockTokenIssuance) && Passes(done, fates, RevokeCredentials)
    && !fates.diesBeforeClosing
  }

  // What suspending the record `r`, which lies in `s`, answers and leaves.
  ghost predicate Suspends(s: State, r: Record, fates: Fates, s': State, reply: Reply) {
    && OnlyThis(s, s', r.id) && r.id in s'.records
    && (reply.Accepted? <==> CanSuspend(r.suspension, fates))
    && (reply.Accepted? ==>
          var r' := reply.record;
          && s'.records[r.id] == r' && AllSuspended(r'.suspension)
          && r' == r.(phase := Suspended, suspension := r'.suspension, lastFailed := None, revision := r'.revision))
    && (!reply.Accepted? ==>
          && (reply.Failed? || reply.Died?)
          && var r' := s'.records[r.id];
             r' == r.(suspension := r'.suspension, lastFailed := r'.lastFailed, revision := r'.revision))
  }

  lemma SuspendOrder(r: Record, fates: Fates)
    ensures (forall j | 0 <= j < |Order(Suspend)| :: Order(Suspend)[j] in Completed(r, Suspend) || Goes(fates, Order(Suspend)[j]))
       <==> (Passes(r.suspension, fates, SuspendSessions) && Passes(r.suspension, fates, BlockTokenIssuance)
             && Passes(r.suspension, fates, RevokeCredentials))
  {
    assert Order(Suspend)[0] == SuspendSessions && Order(Suspend)[1] == BlockTokenIssuance && Order(Suspend)[2] == RevokeCredentials;
  }

  lemma SuspendStops(s: State, r: Record, fates: Fates)
    requires r.id in s.records && s.records[r.id] == r && RunSteps(s, r, Suspend, 0, fates).Halted?
    requires StepsLeave(s, r, Suspend, 0, fates, RunSteps(s, r, Suspend, 0, fates))
    ensures var (s', reply) := SuspendAccess(s, r, fates); Suspends(s, r, fates, s', reply)
  {
    SuspendOrder(r, fates);
    var p := RunSteps(s, r, Suspend, 0, fates);
    var j :| StopsAt(r, Suspend, 0, j, fates, p.reply);
  }

  lemma SuspendRecords(s: State, r: Record, fates: Fates, p: Progress)
    requires p.Through? && StepsLeave(s, r, Suspend, 0, fates, p)
    ensures AllSuspended(p.r.suspension) && p.r == r.(suspension := p.r.suspension, lastFailed := p.r.lastFailed, revision := p.r.revision)
    ensures Passes(r.suspension, fates, SuspendSessions) && Passes(r.suspension, fates, BlockTokenIssuance)
            && Passes(r.suspension, fates, RevokeCredentials)
  {
    SuspendOrder(r, fates);
    forall j | 0 <= j < |Order(Suspend)| ensures Order(Suspend)[j] in p.r.suspension {
      assert Order(Suspend)[j] in Completed(p.r, Suspend);
    }
    assert Order(Suspend)[0] == SuspendSessions && Order(Suspend)[1] == BlockTokenIssuance && Order(Suspend)[2] == RevokeCredentials;
  }

  lemma SuspendCloses(s: State, r: Record, fates: Fates, p: Progress)
    requires p.Through? && StepsLeave(s, r, Suspend, 0, fates, p)
    requires p == RunSteps(s, r, Suspend, 0, fates)
    ensures var (s', reply) := SuspendAccess(s, r, fates); Suspends(s, r, fates, s', reply)
  {
    SuspendRecords(s, r, fates, p);
    var done := p.r.(phase := Suspended, lastFailed := None);
    assert Save(p.s, done) == Through(p.s.(records := p.s.records[r.id := Bumped(done)]), Bumped(done));
  }

  lemma {:induction false} SuspendExactly(s: State, r: Record, fates: Fates)
    requires r.id in s.records && s.records[r.id] == r
    ensures var (s', reply) := SuspendAccess(s, r, fates); Suspends(s, r, fates, s', reply)
  {
    StepsExactly(s, r, Suspend, 0, fates);
    var p := RunSteps(s, r, Suspend, 0, fates);
    if p.Through? { SuspendCloses(s, r, fates, p); } else { SuspendStops(s, r, fates); }
  }

  // A request is a conflict exactly when its id is known with other contents or already
  // destroyed, or the tenant has another request that is not cancelled; what is new is saved
  // with what was asked for, and access is suspended by the three steps or what is left of them.
  lemma {:induction false} RequestExactly(s: State, id: string, resources: Resources, actor: string, reason: string,
          at: Instant, policyName: string, fates: Fates)
    requires id in s.records ==> s.records[id].id == id
    ensures var (s', reply) := Request(s, id, resources, actor, reason, at, policyName, fates);
            && (reply == Conflict <==>
                  !IsNew(s, id, resources.tenant) && !SameRequest(s, id, resources, actor, reason, policyName))
            && (reply == Conflict ==> s' == s)
            && (SameRequest(s, id, resources, actor, reason, policyName) && s.records[id].phase != Suspending ==>
                  s' == s && reply == Accepted(s.records[id]))
            && (SameRequest(s, id, resources, actor, reason, policyName) && s.records[id].phase == Suspending ==>
                  Suspends(s, s.records[id], fates, s', reply))
            && (IsNew(s, id, resources.tenant) ==>
                  var r := Record(id, resources, actor, reason, at, policyName, Suspending, [], None, None, None, None, [],
                                  None, None, None, 1);
                  Suspends(State(s.records[id := r], s.tombstones,
                                 s.log[id := (if id in s.log then s.log[id] else []) + [Requested(actor, at)]]),
                           r, fates, s', reply))
  {
    if id in s.records {
      SuspendExactly(s, s.records[id], fates);
    } else if id !in s.tombstones && !Open(s.records, resources.tenant) {
      var p := Save(Note(s, id, Requested(actor, at)), NewRecord(id, resources, actor, reason, at, policyName));
      SuspendExactly(p.s, p.r, fates);
    }
  }

  // ---------------------------------------------------------------------------
  // Cancellation
  // ---------------------------------------------------------------------------

  predicate MayCancel(s: State, id: string, tenant: string, at: Instant) {
    && Known(s, id, tenant) && s.records[id].phase == Grace
    && s.records[id].graceEndsAt.Some? && at < s.records[id].graceEndsAt.value
  }

  predicate ChecksPass(fates: Fates) {
    && Goes(fates, VerifyRoute) && Goes(fates, VerifySchema) && Goes(fates, VerifyIsolation)
    && Goes(fates, VerifyCredentials) && Goes(fates, VerifyHealth)
  }

  function Logged(s: State, id: string, entries: seq<Entry>): map<string, seq<Entry>> {
    s.log[id := (if id in s.log then s.log[id] else []) + entries]
  }

  lemma NoteTwice(s: State, id: string, e: Entry, rest: seq<Entry>)
    ensures Logged(Note(s, id, e), id, rest) == Logged(s, id, [e] + rest)
  {
    assert LogOf(s, id) + [e] + rest == LogOf(s, id) + ([e] + rest);
  }

  lemma LoggedTwice(s: State, id: string, entries: seq<Entry>, e: Entry)
    ensures Note(s.(log := Logged(s, id, entries)), id, e).log == Logged(s, id, entries + [e])
  {
    assert LogOf(s, id) + entries + [e] == LogOf(s, id) + (entries + [e]);
  }

  function PassedChecks(k: nat): seq<Entry>
    requires k <= |CHECKS|
    decreases |CHECKS| - k
  {
    if k == |CHECKS| then [] else [Ran(CHECKS[k], true)] + PassedChecks(k + 1)
  }

  ghost predicate ChecksLeave(s: State, r: Record, k: nat, fates: Fates, p: Progress)
    requires k <= |CHECKS|
  {
    && (p.Through? <==> forall j | k <= j < |CHECKS| :: Goes(fates, CHECKS[j]))
    && (p.Through? ==> p.r == r && (k < |CHECKS| ==> p.s == s.(log := Logged(s, r.id, PassedChecks(k)))) && (k == |CHECKS| ==> p.s == s))
    && (p.Halted? ==> (p.reply == NotReady || p.reply == Died || p.reply.Failed?) && Untouched(s, r, p.s))
  }

  // At most the failure was noted on the record.
  ghost predicate Untouched(s: State, r: Record, s': State) {
    && OnlyThis(s, s', r.id) && r.id in s'.records
    && (s'.records[r.id] == r || s'.records[r.id] == r.(lastFailed := s'.records[r.id].lastFailed, revision := r.revision + 1))
  }

  lemma CheckTaken(s: State, r: Record, k: nat, fates: Fates, p: Progress)
    requires k < |CHECKS| && Goes(fates, CHECKS[k]) && r.id in s.records && s.records[r.id] == r
    requires ChecksLeave(Note(s, r.id, Ran(CHECKS[k], true)), r, k + 1, fates, p)
    ensures ChecksLeave(s, r, k, fates, p)
  {
    var e := Ran(CHECKS[k], true);
    if p.Through? {
      NoteTwice(s, r.id, e, PassedChecks(k + 1));
      assert k + 1 == |CHECKS| ==> [e] + PassedChecks(k + 1) == [e];
      assert PassedChecks(k) == [e] + PassedChecks(k + 1);
    } else {
      assert Untouched(s, r, p.s);
    }
  }

  lemma {:induction false} ChecksExactly(s: State, r: Record, k: nat, fates: Fates)
    requires k <= |CHECKS| && r.id in s.records && s.records[r.id] == r
    ensures ChecksLeave(s, r, k, fates, RunChecks(s, r, k, fates))
    decreases |CHECKS| - k
  {
    if k < |CHECKS| && Goes(fates, CHECKS[k]) {
      var s1 := Note(s, r.id, Ran(CHECKS[k], true));
      ChecksExactly(s1, r, k + 1, fates);
      CheckTaken(s, r, k, fates, RunChecks(s1, r, k + 1, fates));
    }
  }

  lemma CheckOrder(fates: Fates)
    ensures (forall j | 0 <= j < |CHECKS| :: Goes(fates, CHECKS[j])) <==> ChecksPass(fates)
    ensures PassedChecks(0) == [Ran(VerifyRoute, true), Ran(VerifySchema, true), Ran(VerifyIsolation, true),
                         Ran(VerifyCredentials, true), Ran(VerifyHealth, true)]
  {
    assert CHECKS[0] == VerifyRoute && CHECKS[1] == VerifySchema && CHECKS[2] == VerifyIsolation;
    assert CHECKS[3] == VerifyCredentials && CHECKS[4] == VerifyHealth;
    LastChecks();
    assert PassedChecks(2) == [Ran(CHECKS[2], true)] + PassedChecks(3);
    assert PassedChecks(1) == [Ran(CHECKS[1], true)] + PassedChecks(2);
    assert PassedChecks(0) == [Ran(CHECKS[0], true)] + PassedChecks(1);
  }

  lemma LastChecks()
    ensures PassedChecks(3) == [Ran(VerifyCredentials, true), Ran(VerifyHealth, true)]
  {
    assert PassedChecks(5) == [];
    assert PassedChecks(4) == [Ran(CHECKS[4], true)] + PassedChecks(5);
    assert PassedChecks(3) == [Ran(CHECKS[3], true)] + PassedChecks(4);
  }

  lemma CancelCloses(s: State, r: Record, entries: seq<Entry>, actor: string, at: Instant, fates: Fates)
    requires r.id in s.records && s.records[r.id] == r
    ensures var (s', reply) := ReactivateAndClose(s.(log := Logged(s, r.id, entries)), r, actor, at, fates);
            && (reply.Accepted? <==> Goes(fates, Reactivate)) && reply != Conflict
            && (reply.Accepted? ==>
                  && reply.record == r.(phase := Cancelled, cancelledBy := Some(actor), cancelledAt := Some(at),
                                        lastFailed := None, revision := r.revision + 1)
                  && s' == State(s.records[r.id := reply.record], s.tombstones,
                                 Logged(s, r.id, entries + [Ran(Reactivate, true)])))
            && (!reply.Accepted? ==> Untouched(s, r, s'))
  {
    LoggedTwice(s, r.id, entries, Ran(Reactivate, true));
  }

  // A request is cancelled exactly in its grace period and strictly before its end, when all
  // five checks and then the reactivation go through; otherwise it stays what it was.
  lemma {:induction false} CancelExactly(s: State, id: string, tenant: string, actor: string, at: Instant, fates: Fates)
    requires id in s.records ==> s.records[id].id == id
    ensures var (s', reply) := Cancel(s, id, tenant, actor, at, fates);
            var already := Known(s, id, tenant) && s.records[id].phase == Cancelled;
            && (reply == Conflict <==> !MayCancel(s, id, tenant, at) && !already)
            && (!MayCancel(s, id, tenant, at) ==> s' == s && (already ==> reply == Accepted(s.records[id])))
            && (MayCancel(s, id, tenant, at) ==>
                  && (reply.Accepted? <==> ChecksPass(fates) && Goes(fates, Reactivate))
                  && (reply.Accepted? ==>
                        var r := s.records[id];
                        && reply.record == r.(phase := Cancelled, cancelledBy := Some(actor), cancelledAt := Some(at),
                                              lastFailed := None, revision := r.revision + 1)
                        && s' == State(s.records[id := reply.record], s.tombstones,
                                       Logged(s, id, [Ran(VerifyRoute, true), Ran(VerifySchema, true),
                                                      Ran(VerifyIsolation, true), Ran(VerifyCredentials, true),
                                                      Ran(VerifyHealth, true), Ran(Reactivate, true)])))
                  && (!reply.Accepted? ==> Untouched(s, s.records[id], s')))
  {
    if MayCancel(s, id, tenant, at) {
      var r := s.records[id];
      ChecksExactly(s, r, 0, fates);
      CheckOrder(fates);
      var p := RunChecks(s, r, 0, fates);
      if p.Through? {
        assert PassedChecks(0) + [Ran(Reactivate, true)]
            == [Ran(VerifyRoute, true), Ran(VerifySchema, true), Ran(VerifyIsolation, true),
                Ran(VerifyCredentials, true), Ran(VerifyHealth, true), Ran(Reactivate, true)];
        CancelCloses(s, r, PassedChecks(0), actor, at, fates);
      }
    }
  }

  // ---------------------------------------------------------------------------
  // Destruction
  // ---------------------------------------------------------------------------

  predicate CanDestroy(done: seq<Action>, fates: Fates) {
    && Passes(done, fates, RemoveCompose) && Passes(done, fates, RemoveVolume) && Passes(done, fates, RemoveDatabase)
    && Passes(done, fates, RemoveRoute) && Passes(done, fates, RemoveSecrets) && Passes(done, fates, PurgeRecords)
    && !fates.diesBeforeClosing
  }

  ghost predicate Destroys(s: State, r: Record, at: Instant, fates: Fates, s': State, reply: Reply) {
    && (reply.Destroyed? <==> CanDestroy(r.destruction, fates) && r.confirmedBy.Some?)
    && (reply.Destroyed? ==>
          && reply.tombstone == Tombstone(r.id, r.resources.tenant, r.requestedBy, r.confirmedBy.value, at)
          && s'.records == s.records - {r.id} && s'.tombstones == s.tombstones[r.id := reply.tombstone])
    && (!reply.Destroyed? ==>
          && OnlyThis(s, s', r.id) && r.id in s'.records
          && var r' := s'.records[r.id];
             r' == r.(destruction := r'.destruction, lastFailed := r'.lastFailed, revision := r'.revision))
  }

  lemma DestroyOrder(r: Record, fates: Fates)
    ensures (forall j | 0 <= j < |Order(Destroy)| :: Order(Destroy)[j] in Completed(r, Destroy) || Goes(fates, Order(Destroy)[j]))
       <==> (&& Passes(r.destruction, fates, RemoveCompose) && Passes(r.destruction, fates, RemoveVolume)
             && Passes(r.destruction, fates, RemoveDatabase) && Passes(r.destruction, fates, RemoveRoute)
             && Passes(r.destruction, fates, RemoveSecrets) && Passes(r.destruction, fates, PurgeRecords))
  {
    assert Order(Destroy)[0] == RemoveCompose && Order(Destroy)[1] == RemoveVolume && Order(Destroy)[2] == RemoveDatabase;
    assert Order(Destroy)[3] == RemoveRoute && Order(Destroy)[4] == RemoveSecrets && Order(Destroy)[5] == PurgeRecords;
  }

  lemma {:induction false} DestroyExactly(s: State, r: Record, at: Instant, fates: Fates)
    requires r.id in s.records && s.records[r.id] == r
    ensures var (s', reply) := DestroyAndBury(s, r, at, fates); Destroys(s, r, at, fates, s', reply)
  {
    StepsExactly(s, r, Destroy, 0, fates);
    DestroyOrder(r, fates);
    var p := RunSteps(s, r, Destroy, 0, fates);
    if p.Halted? {
      var j :| StopsAt(r, Destroy, 0, j, fates, p.reply);
    } else {
      assert p.s.records - {r.id} == s.records - {r.id};
    }
  }

  predicate MayFinalize(s: State, id: string, tenant: string, at: Instant) {
    && Known(s, id, tenant)
    && (|| s.records[id].phase == Finalizing
        || (s.records[id].phase == Grace && s.records[id].graceEndsAt.Some? && at >= s.records[id].graceEndsAt.value))
  }

  lemma {:induction false} FinalizeAdmits(s: State, id: string, tenant: string, at: Instant, fates: Fates)
    requires id !in s.tombstones && MayFinalize(s, id, tenant, at) && s.records[id].id == id && s.records[id].phase == Grace
    ensures var (s', reply) := Finalize(s, id, tenant, at, fates);
            var r := s.records[id];
            var r1 := r.(phase := Finalizing, lastFailed := None, revision := r.revision + 1);
            Destroys(State(s.records[id := r1], s.tombstones, Logged(s, id, [Admitted(at)])), r1, at, fates, s', reply)
  {
    var r := s.records[id];
    var r1 := r.(phase := Finalizing, lastFailed := None, revision := r.revision + 1);
    var s1 := State(s.records[id := r1], s.tombstones, Logged(s, id, [Admitted(at)]));
    assert Save(Note(s, id, Admitted(at)), r.(phase := Finalizing, lastFailed := None)) == Through(s1, r1);
    DestroyExactly(s1, r1, at, fates);
    assert Finalize(s, id, tenant, at, fates) == DestroyAndBury(s1, r1, at, fates);
  }

  // A finalize call gets as far as destroying exactly when the request is finalizing or its
  // grace period has ended; the record gives way to a tombstone exactly when all six steps are
  // recorded or go through. Too early is told apart from not possible at all.
  lemma {:induction false} FinalizeExactly(s: State, id: string, tenant: string, at: Instant, fates: Fates)
    requires id in s.records ==> s.records[id].id == id
    ensures var (s', reply) := Finalize(s, id, tenant, at, fates);
            && (id in s.tombstones ==>
                  s' == s && reply == if s.tombstones[id].tenant == tenant then Destroyed(s.tombstones[id]) else Conflict)
            && (id !in s.tombstones && !MayFinalize(s, id, tenant, at) ==>
                  s' == s && reply == if Known(s, id, tenant) && s.records[id].phase == Grace then NotReady else Conflict)
            && (id !in s.tombstones && MayFinalize(s, id, tenant, at) ==>
                  var r := s.records[id];
                  if r.phase == Finalizing then Destroys(s, r, at, fates, s', reply)
                  else
                    var r1 := r.(phase := Finalizing, lastFailed := None, revision := r.revision + 1);
                    Destroys(State(s.records[id := r1], s.tombstones, Logged(s, id, [Admitted(at)])), r1, at, fates, s', reply))
  {
    if id !in s.tombstones && MayFinalize(s, id, tenant, at) {
      if s.records[id].phase == Finalizing {
        DestroyExactly(s, s.records[id], at, fates);
      } else {
        FinalizeAdmits(s, id, tenant, at, fates);
      }
    }
  }
}
