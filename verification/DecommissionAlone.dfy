// The overlapping calls of module DecommissionRace are the calls of module Decommission taken apart:
// made without anyone in between, they end in the same records and tombstones, whichever actions
// fail.
module DecommissionAlone {
  import opened Common
  import opened Decommission
  import opened DecommissionRace
  import DecommissionStale

  // No action kills the process; that is the race's own step.
  predicate Survives(fates: Fates) {
    && !fates.diesBeforeClosing
    && forall a | a in fates.ofAction :: fates.ofAction[a] == Succeeds || fates.ofAction[a] == Refuses || fates.ofAction[a] == Raises
  }

  // The caller is between calls and the store is the one the call left.
  predicate EndsAs(w: World, w': World, c: Caller, s: State) {
    w'.records == s.records && w'.tombstones == s.tombstones && w'.callers == w.callers && c !in w'.callers
  }

  // The caller goes on with its call, and no other moves.
  predicate GoesOn(steps: seq<Step>, c: Caller) {
    forall st | st in steps :: (st.Advance? || st.CheckFails?) && st.c == c
  }

  predicate IsCall(steps: seq<Step>, ask: Step, c: Caller) {
    steps != [] && steps[0] == ask && GoesOn(steps[1..], c)
  }

  lemma RunTwo(policy: Policy, w: World, a: Step, b: Step, rest: seq<Step>)
    ensures Run(policy, w, [a, b] + rest) == Run(policy, Apply(policy, Apply(policy, w, a), b), rest)
  {
    var steps := [a, b] + rest;
    assert steps[1..] == [b] + rest && ([b] + rest)[1..] == rest;
    assert Run(policy, Apply(policy, w, a), [b] + rest) == Run(policy, Apply(policy, Apply(policy, w, a), b), rest);
  }

  lemma RunFirst(policy: Policy, w: World, a: Step, rest: seq<Step>)
    ensures Run(policy, w, [a] + rest) == Run(policy, Apply(policy, w, a), rest)
  {
    assert ([a] + rest)[1..] == rest;
  }

  // ---------------------------------------------------------------------------
  // Confirmation
  // ---------------------------------------------------------------------------

  lemma AloneConfirms(policy: Policy, w: World, s: State, c: Caller, id: string, tenant: string, actor: string,
          e: Evidence, at: Instant, fates: Fates) returns (steps: seq<Step>)
    requires c !in w.callers && s.records == w.records && s.tombstones == w.tombstones
    requires id in w.records ==> w.records[id].id == id
    ensures IsCall(steps, AskConfirm(c, id, tenant, actor, e, at, FateOf(fates, VerifyEvidence) == Succeeds), c)
    ensures EndsAs(w, Run(policy, w, steps), c, Confirm(s, policy, id, tenant, actor, e, at, fates).0)
  {
    var ask := AskConfirm(c, id, tenant, actor, e, at, FateOf(fates, VerifyEvidence) == Succeeds);
    var w1 := Apply(policy, w, ask);
    if c in w1.callers {
      steps := [ask, Advance(c, true)];
      RunTwo(policy, w, ask, Advance(c, true), []);
      assert [ask, Advance(c, true)] + [] == steps;
      var w2 := Apply(policy, w1, Advance(c, true));
      assert w2.callers == w.callers;
    } else {
      steps := [ask];
      RunFirst(policy, w, ask, []);
      assert [ask] + [] == steps;
      assert w1.callers == w.callers;
    }
  }

  // ---------------------------------------------------------------------------
  // The steps of suspension and destruction
  // ---------------------------------------------------------------------------

  lemma {:induction false} NextIs(part: Part, done: seq<Action>, k: nat, j: nat)
    requires j <= k <= |Order(part)| && forall i | j <= i < k :: Order(part)[i] in done
    ensures NextStep(part, done, j) == NextStep(part, done, k)
    decreases k - j
  {
    if j < k { NextIs(part, done, k, j + 1); }
  }

  ghost predicate InSteps(policy: Policy, w: World, c: Caller, s: State, r: Record, part: Part, k: nat, at: Instant) {
    && c in w.callers && w.callers[c] == Stepping(r, part, at)
    && s.records == w.records && s.tombstones == w.tombstones && r.id in w.records && w.records[r.id] == r
    && k <= |Order(part)| && forall i | 0 <= i < k :: Order(part)[i] in Completed(r, part)
  }

  ghost predicate AfterSteps(policy: Policy, w: World, w': World, c: Caller, p: Progress, part: Part, at: Instant) {
    && w'.callers - {c} == w.callers - {c}
    && if p.Through? then InSteps(policy, w', c, p.s, p.r, part, |Order(part)|, at)
       else c !in w'.callers && w'.records == p.s.records && w'.tombstones == p.s.tombstones
  }

  // One step of the caller, tried and saved.
  lemma StepTaken(policy: Policy, w: World, c: Caller, s: State, r: Record, part: Part, k: nat, at: Instant)
    requires InSteps(policy, w, c, s, r, part, k, at) && k < |Order(part)| && Order(part)[k] !in Completed(r, part)
    ensures var p := Save(Note(s, r.id, Ran(Order(part)[k], true)), Complete(r, part, Order(part)[k]));
            var w2 := Apply(policy, Apply(policy, w, Advance(c, true)), Advance(c, true));
            p.Through? && InSteps(policy, w2, c, p.s, p.r, part, k + 1, at) && w2.callers - {c} == w.callers - {c}
  {
    NextIs(part, Completed(r, part), k, 0);
  }

  lemma StepFailed(policy: Policy, w: World, c: Caller, s: State, r: Record, part: Part, k: nat, at: Instant)
    requires InSteps(policy, w, c, s, r, part, k, at) && k < |Order(part)| && Order(part)[k] !in Completed(r, part)
    ensures var a := Order(part)[k];
            var p := SaveFailure(Note(s, r.id, Ran(a, false)), r, a, Failed(a));
            var w2 := Apply(policy, Apply(policy, w, Advance(c, false)), Advance(c, true));
            && w2.records == p.s.records && w2.tombstones == p.s.tombstones && c !in w2.callers
            && w2.callers - {c} == w.callers - {c}
  {
    NextIs(part, Completed(r, part), k, 0);
  }

  lemma {:induction false} AloneSteps(policy: Policy, w: World, c: Caller, s: State, r: Record, part: Part, k: nat,
          at: Instant, fates: Fates) returns (steps: seq<Step>)
    requires Survives(fates) && InSteps(policy, w, c, s, r, part, k, at)
    ensures GoesOn(steps, c)
    ensures AfterSteps(policy, w, Run(policy, w, steps), c, RunSteps(s, r, part, k, fates), part, at)
    decreases |Order(part)| - k
  {
    if k == |Order(part)| {
      steps := [];
    } else if Order(part)[k] in Completed(r, part) {
      steps := AloneSteps(policy, w, c, s, r, part, k + 1, at, fates);
    } else if FateOf(fates, Order(part)[k]) == Succeeds {
      StepTaken(policy, w, c, s, r, part, k, at);
      var p := Save(Note(s, r.id, Ran(Order(part)[k], true)), Complete(r, part, Order(part)[k]));
      var w2 := Apply(policy, Apply(policy, w, Advance(c, true)), Advance(c, true));
      var rest := AloneSteps(policy, w2, c, p.s, p.r, part, k + 1, at, fates);
      steps := [Advance(c, true), Advance(c, true)] + rest;
      RunTwo(policy, w, Advance(c, true), Advance(c, true), rest);
    } else {
      StepFailed(policy, w, c, s, r, part, k, at);
      steps := [Advance(c, false), Advance(c, true)];
      RunTwo(policy, w, Advance(c, false), Advance(c, true), []);
      assert [Advance(c, false), Advance(c, true)] + [] == steps;
    }
  }

  // ---------------------------------------------------------------------------
  // Request
  // ---------------------------------------------------------------------------

  lemma SuspensionCloses(policy: Policy, w: World, c: Caller, s: State, r: Record, at: Instant)
    requires InSteps(policy, w, c, s, r, Suspend, |Order(Suspend)|, at)
    ensures var p := Save(s, r.(phase := Suspended, lastFailed := None));
            var w2 := Apply(policy, Apply(policy, w, Advance(c, true)), Advance(c, true));
            && w2.records == p.s.records && w2.tombstones == p.s.tombstones && c !in w2.callers
            && w2.callers - {c} == w.callers - {c}
  {
    NextIs(Suspend, Completed(r, Suspend), |Order(Suspend)|, 0);
  }

  lemma AloneSuspends(policy: Policy, w: World, c: Caller, s: State, r: Record, at: Instant, fates: Fates)
    returns (steps: seq<Step>)
    requires Survives(fates) && InSteps(policy, w, c, s, r, Suspend, 0, at)
    ensures GoesOn(steps, c)
    ensures var s', w' := SuspendAccess(s, r, fates).0, Run(policy, w, steps);
            w'.records == s'.records && w'.tombstones == s'.tombstones && c !in w'.callers && w'.callers - {c} == w.callers - {c}
  {
    steps := AloneSteps(policy, w, c, s, r, Suspend, 0, at, fates);
    var p := RunSteps(s, r, Suspend, 0, fates);
    if p.Through? {
      var w1 := Run(policy, w, steps);
      SuspensionCloses(policy, w1, c, p.s, p.r, at);
      var last := [Advance(c, true), Advance(c, true)];
      DecommissionStale.RunJoin(policy, w, steps, last);
      RunTwo(policy, w1, Advance(c, true), Advance(c, true), []);
      assert last + [] == last;
      steps := steps + last;
    }
  }

  lemma CreatesInFour(policy: Policy, w: World, c: Caller, draft: Record)
    requires c !in w.callers && IsDraft(draft) && draft.id !in w.records && draft.id !in w.tombstones
    requires !Open(w.records, draft.resources.tenant)
    ensures var w' := Run(policy, w, [AskRequest(c, draft), Advance(c, true), Advance(c, true), Advance(c, true)]);
            && w'.records == w.records[draft.id := Bumped(draft)] && w'.tombstones == w.tombstones
            && w'.callers == w.callers[c := Stepping(Bumped(draft), Suspend, 0)]
  {
    RunTwo(policy, w, AskRequest(c, draft), Advance(c, true), [Advance(c, true), Advance(c, true)]);
    var w2 := Apply(policy, Apply(policy, w, AskRequest(c, draft)), Advance(c, true));
    RunTwo(policy, w2, Advance(c, true), Advance(c, true), []);
    assert [AskRequest(c, draft), Advance(c, true)] + [Advance(c, true), Advance(c, true)]
        == [AskRequest(c, draft), Advance(c, true), Advance(c, true), Advance(c, true)];
    assert [Advance(c, true), Advance(c, true)] + [] == [Advance(c, true), Advance(c, true)];
  }

  lemma RequestCreates(s: State, draft: Record, fates: Fates)
    requires IsDraft(draft) && draft.id !in s.records && draft.id !in s.tombstones && !Open(s.records, draft.resources.tenant)
    ensures var p := Save(Note(s, draft.id, Requested(draft.requestedBy, draft.requestedAt)), draft);
            && p == Through(p.s, Bumped(draft)) && p.s.records == s.records[draft.id := Bumped(draft)] && p.s.tombstones == s.tombstones
            && Request(s, draft.id, draft.resources, draft.requestedBy, draft.reason, draft.requestedAt, draft.policyName, fates)
            == SuspendAccess(p.s, p.r, fates)
  {
  }

  lemma AloneCreates(policy: Policy, w: World, s: State, c: Caller, draft: Record, fates: Fates) returns (steps: seq<Step>)
    requires Survives(fates) && c !in w.callers && s.records == w.records && s.tombstones == w.tombstones && IsDraft(draft)
    requires draft.id !in w.records && draft.id !in w.tombstones && !Open(w.records, draft.resources.tenant)
    ensures IsCall(steps, AskRequest(c, draft), c)
    ensures EndsAs(w, Run(policy, w, steps), c, Request(s, draft.id, draft.resources, draft.requestedBy, draft.reason,
                                                        draft.requestedAt, draft.policyName, fates).0)
  {
    var first := [AskRequest(c, draft), Advance(c, true), Advance(c, true), Advance(c, true)];
    CreatesInFour(policy, w, c, draft);
    RequestCreates(s, draft, fates);
    var w1 := Run(policy, w, first);
    var p := Save(Note(s, draft.id, Requested(draft.requestedBy, draft.requestedAt)), draft);
    var rest := SuspendsFrom(policy, w, w1, c, p.s, Bumped(draft), fates);
    DecommissionStale.RunJoin(policy, w, first, rest);
    steps := first + rest;
  }

  lemma SuspendsFrom(policy: Policy, w: World, w1: World, c: Caller, s: State, r: Record, fates: Fates) returns (steps: seq<Step>)
    requires Survives(fates) && c !in w.callers && w1.callers == w.callers[c := Stepping(r, Suspend, 0)]
    requires s.records == w1.records && s.tombstones == w1.tombstones && r.id in w1.records && w1.records[r.id] == r
    ensures GoesOn(steps, c)
    ensures EndsAs(w, Run(policy, w1, steps), c, SuspendAccess(s, r, fates).0)
  {
    steps := AloneSuspends(policy, w1, c, s, r, 0, fates);
    var w2 := Run(policy, w1, steps);
    assert w1.callers - {c} == w.callers && w2.callers - {c} == w2.callers;
  }

  lemma AloneRequests(policy: Policy, w: World, s: State, c: Caller, draft: Record, fates: Fates) returns (steps: seq<Step>)
    requires Survives(fates) && c !in w.callers && s.records == w.records && s.tombstones == w.tombstones && IsDraft(draft)
    requires draft.id in w.records ==> w.records[draft.id].id == draft.id
    ensures IsCall(steps, AskRequest(c, draft), c)
    ensures EndsAs(w, Run(policy, w, steps), c, Request(s, draft.id, draft.resources, draft.requestedBy, draft.reason,
                                                        draft.requestedAt, draft.policyName, fates).0)
  {
    if draft.id !in w.records && draft.id !in w.tombstones && !Open(w.records, draft.resources.tenant) {
      steps := AloneCreates(policy, w, s, c, draft, fates);
    } else if draft.id in w.records && c in Apply(policy, w, AskRequest(c, draft)).callers {
      var w1 := Apply(policy, w, AskRequest(c, draft));
      var rest := AloneSuspends(policy, w1, c, s, w.records[draft.id], 0, fates);
      steps := [AskRequest(c, draft)] + rest;
      RunFirst(policy, w, AskRequest(c, draft), rest);
      assert w1.callers - {c} == w.callers;
    } else {
      steps := RefusedIn(policy, w, c, draft);
    }
  }

  // A request that is not taken up makes no save.
  lemma RefusedIn(policy: Policy, w: World, c: Caller, draft: Record) returns (steps: seq<Step>)
    requires c !in w.callers && IsDraft(draft)
    requires if draft.id in w.records then c !in Apply(policy, w, AskRequest(c, draft)).callers
             else draft.id in w.tombstones || Open(w.records, draft.resources.tenant)
    ensures IsCall(steps, AskRequest(c, draft), c)
    ensures var w' := Run(policy, w, steps); w'.records == w.records && w'.tombstones == w.tombstones && w'.callers == w.callers
  {
    var ask, go := AskRequest(c, draft), Advance(c, true);
    if draft.id in w.records {
      steps := [ask];
      RunFirst(policy, w, ask, []);
      assert [ask] + [] == steps;
    } else if draft.id in w.tombstones {
      steps := [ask, go];
      RunTwo(policy, w, ask, go, []);
      assert [ask, go] + [] == steps;
      assert w.callers[c := RequestMissing(draft)] - {c} == w.callers;
    } else {
      steps := [ask, go] + [go];
      RunTwo(policy, w, ask, go, [go]);
      var w2 := Apply(policy, Apply(policy, w, ask), go);
      RunFirst(policy, w2, go, []);
      assert [go] + [] == [go];
      assert w.callers[c := RequestMissing(draft)][c := RequestUnknown(draft)] - {c} == w.callers;
    }
  }

  // ---------------------------------------------------------------------------
  // Finalization
  // ---------------------------------------------------------------------------

  lemma AloneDestroys(policy: Policy, w: World, c: Caller, s: State, r: Record, at: Instant, fates: Fates)
    returns (steps: seq<Step>)
    requires Survives(fates) && InSteps(policy, w, c, s, r, Destroy, 0, at)
    ensures GoesOn(steps, c)
    ensures var s', w' := DestroyAndBury(s, r, at, fates).0, Run(policy, w, steps);
            w'.records == s'.records && w'.tombstones == s'.tombstones && c !in w'.callers && w'.callers - {c} == w.callers - {c}
  {
    steps := AloneSteps(policy, w, c, s, r, Destroy, 0, at, fates);
    var p := RunSteps(s, r, Destroy, 0, fates);
    if p.Through? {
      var w1 := Run(policy, w, steps);
      NextIs(Destroy, Completed(p.r, Destroy), |Order(Destroy)|, 0);
      var last := [Advance(c, true)];
      DecommissionStale.RunJoin(policy, w, steps, last);
      RunFirst(policy, w1, Advance(c, true), []);
      assert last + [] == last;
      steps := steps + last;
    }
  }

  lemma FinalizeGoesOn(s: State, id: string, tenant: string, at: Instant, fates: Fates)
    requires id !in s.tombstones && id in s.records && s.records[id].id == id && s.records[id].resources.tenant == tenant
    ensures var r := s.records[id];
            var p := Save(Note(s, id, Admitted(at)), r.(phase := Finalizing, lastFailed := None));
            && p == Through(p.s, Bumped(r.(phase := Finalizing, lastFailed := None)))
            && p.s.records == s.records[id := p.r] && p.s.tombstones == s.tombstones
            && Finalize(s, id, tenant, at, fates) ==
                 if r.phase == Finalizing then DestroyAndBury(s, r, at, fates)
                 else if r.phase == Grace && r.graceEndsAt.Some? && at >= r.graceEndsAt.value then DestroyAndBury(p.s, p.r, at, fates)
                 else (s, if r.phase == Grace then NotReady else Conflict)
  {
  }

  // The caller read a finalizing record.
  lemma GoesOnDestroying(policy: Policy, w: World, w1: World, c: Caller, s: State, r: Record, at: Instant, fates: Fates)
    returns (steps: seq<Step>)
    requires Survives(fates) && c !in w.callers && w1.callers == w.callers[c := Stepping(r, Destroy, at)]
    requires s.records == w1.records && s.tombstones == w1.tombstones && r.id in w1.records && w1.records[r.id] == r
    ensures GoesOn(steps, c)
    ensures EndsAs(w, Run(policy, w1, steps), c, DestroyAndBury(s, r, at, fates).0)
  {
    steps := AloneDestroys(policy, w1, c, s, r, at, fates);
    var w2 := Run(policy, w1, steps);
    assert w1.callers - {c} == w.callers && w2.callers - {c} == w2.callers;
  }

  lemma AskedAndRead(policy: Policy, w: World, c: Caller, id: string, tenant: string, at: Instant)
    requires c !in w.callers && id !in w.tombstones
    ensures var w2 := Apply(policy, Apply(policy, w, AskFinalize(c, id, tenant, at)), Advance(c, true));
            && w2.records == w.records && w2.tombstones == w.tombstones
            && w2.callers ==
                 if id !in w.records || w.records[id].resources.tenant != tenant then w.callers
                 else
                   var r := w.records[id];
                   if r.phase == Finalizing then w.callers[c := Stepping(r, Destroy, at)]
                   else if r.phase == Grace && r.graceEndsAt.Some? && at >= r.graceEndsAt.value then
                     w.callers[c := Admitting(r.(phase := Finalizing, lastFailed := None), at)]
                   else w.callers
  {
    assert w.callers[c := FinalizeAsked(id, tenant, at)] - {c} == w.callers;
  }

  lemma AloneAdmits(policy: Policy, w: World, w2: World, s: State, c: Caller, r: Record, at: Instant, fates: Fates)
    returns (steps: seq<Step>)
    requires Survives(fates) && c !in w.callers && r.id in w2.records && w2.records[r.id] == r
    requires w2.callers == w.callers[c := Admitting(r.(phase := Finalizing, lastFailed := None), at)]
    requires var r1 := Bumped(r.(phase := Finalizing, lastFailed := None));
             s.records == w2.records[r.id := r1] && s.tombstones == w2.tombstones
    ensures GoesOn(steps, c)
    ensures EndsAs(w, Run(policy, w2, steps), c, DestroyAndBury(s, Bumped(r.(phase := Finalizing, lastFailed := None)), at, fates).0)
  {
    var r1 := Bumped(r.(phase := Finalizing, lastFailed := None));
    var w3 := Apply(policy, w2, Advance(c, true));
    assert w3.callers == w.callers[c := Stepping(r1, Destroy, at)];
    var rest := GoesOnDestroying(policy, w, w3, c, s, r1, at, fates);
    steps := [Advance(c, true)] + rest;
    RunFirst(policy, w2, Advance(c, true), rest);
  }

  lemma AloneFinalizes(policy: Policy, w: World, s: State, c: Caller, id: string, tenant: string, at: Instant, fates: Fates)
    returns (steps: seq<Step>)
    requires Survives(fates) && c !in w.callers && s.records == w.records && s.tombstones == w.tombstones
    requires id in w.records ==> w.records[id].id == id
    ensures IsCall(steps, AskFinalize(c, id, tenant, at), c)
    ensures EndsAs(w, Run(policy, w, steps), c, Finalize(s, id, tenant, at, fates).0)
  {
    var ask, go := AskFinalize(c, id, tenant, at), Advance(c, true);
    if id in w.tombstones {
      steps := [ask];
      RunFirst(policy, w, ask, []);
      assert [ask] + [] == steps;
    } else {
      AskedAndRead(policy, w, c, id, tenant, at);
      var w2 := Apply(policy, Apply(policy, w, ask), go);
      var rest: seq<Step> := [];
      if c in w2.callers {
        var r := w.records[id];
        FinalizeGoesOn(s, id, tenant, at, fates);
        if r.phase == Finalizing {
          rest := GoesOnDestroying(policy, w, w2, c, s, r, at, fates);
        } else {
          var p := Save(Note(s, id, Admitted(at)), r.(phase := Finalizing, lastFailed := None));
          rest := AloneAdmits(policy, w, w2, p.s, c, r, at, fates);
        }
      } else if id in w.records && w.records[id].resources.tenant == tenant {
        FinalizeGoesOn(s, id, tenant, at, fates);
      }
      steps := [ask, go] + rest;
      RunTwo(policy, w, ask, go, rest);
    }
  }

  // ---------------------------------------------------------------------------
  // Cancellation
  // ---------------------------------------------------------------------------

  // The checks leave the record as it is, or note the first that fails.
  lemma {:induction false} ChecksEnd(s: State, r: Record, k: nat, fates: Fates) returns (failed: Option<Action>)
    requires Survives(fates) && k <= |CHECKS| && r.id in s.records && s.records[r.id] == r
    ensures var p := RunChecks(s, r, k, fates);
            && p.s.tombstones == s.tombstones
            && (failed.None? ==> p.Through? && p.r == r && p.s.records == s.records)
            && (failed.Some? ==> p.Halted? && failed.value in CHECKS
                                 && p.s.records == s.records[r.id := Bumped(r.(lastFailed := failed))])
    decreases |CHECKS| - k
  {
    if k == |CHECKS| {
      failed := None;
    } else if FateOf(fates, CHECKS[k]) == Succeeds {
      failed := ChecksEnd(Note(s, r.id, Ran(CHECKS[k], true)), r, k + 1, fates);
    } else {
      failed := Some(CHECKS[k]);
    }
  }

  lemma CancelEnds(s: State, id: string, tenant: string, actor: string, at: Instant, fates: Fates, failed: Option<Action>)
    requires Survives(fates) && id in s.records && s.records[id].id == id && s.records[id].resources.tenant == tenant
    requires s.records[id].phase == Grace && s.records[id].graceEndsAt.Some? && at < s.records[id].graceEndsAt.value
    requires var r, p := s.records[id], RunChecks(s, s.records[id], 0, fates);
             && p.s.tombstones == s.tombstones
             && (failed.None? ==> p.Through? && p.r == r && p.s.records == s.records)
             && (failed.Some? ==> p.Halted? && p.s.records == s.records[id := Bumped(r.(lastFailed := failed))])
    ensures var r, s' := s.records[id], Cancel(s, id, tenant, actor, at, fates).0;
            && s'.tombstones == s.tombstones
            && s'.records == s.records[id := Bumped(
                 if failed.Some? then r.(lastFailed := failed)
                 else if FateOf(fates, Reactivate) == Succeeds then
                   r.(phase := Cancelled, cancelledBy := Some(actor), cancelledAt := Some(at), lastFailed := None)
                 else r.(lastFailed := Some(Reactivate)))]
  {
  }

  lemma CancelsInThree(policy: Policy, w: World, c: Caller, id: string, tenant: string, actor: string, at: Instant,
          failed: Option<Action>, ok: bool)
    requires c !in w.callers && id in w.records && w.records[id].id == id
    requires c in Apply(policy, w, AskCancel(c, id, tenant, actor, at)).callers && (failed.Some? ==> failed.value in CHECKS)
    ensures var w1 := Apply(policy, w, AskCancel(c, id, tenant, actor, at));
            var w2 := Apply(policy, w1, if failed.Some? then CheckFails(c, failed.value) else Advance(c, ok));
            var w3, r := Apply(policy, w2, Advance(c, true)), w.records[id];
            && r.resources.tenant == tenant && r.phase == Grace && r.graceEndsAt.Some? && at < r.graceEndsAt.value
            && w3.tombstones == w.tombstones && w3.callers == w.callers
            && w3.records == w.records[id := Bumped(
                 if failed.Some? then r.(lastFailed := failed)
                 else if ok then r.(phase := Cancelled, cancelledBy := Some(actor), cancelledAt := Some(at), lastFailed := None)
                 else r.(lastFailed := Some(Reactivate)))]
  {
  }

  lemma AloneCancels(policy: Policy, w: World, s: State, c: Caller, id: string, tenant: string, actor: string, at: Instant,
          fates: Fates) returns (steps: seq<Step>)
    requires Survives(fates) && c !in w.callers && s.records == w.records && s.tombstones == w.tombstones
    requires id in w.records ==> w.records[id].id == id
    ensures IsCall(steps, AskCancel(c, id, tenant, actor, at), c)
    ensures EndsAs(w, Run(policy, w, steps), c, Cancel(s, id, tenant, actor, at, fates).0)
  {
    var ask, save := AskCancel(c, id, tenant, actor, at), Advance(c, true);
    var w1 := Apply(policy, w, ask);
    if c !in w1.callers {
      steps := [ask];
      RunFirst(policy, w, ask, []);
      assert [ask] + [] == steps;
      assert w1.callers == w.callers;
    } else {
      var failed := ChecksEnd(s, w.records[id], 0, fates);
      var act := if failed.Some? then CheckFails(c, failed.value) else Advance(c, FateOf(fates, Reactivate) == Succeeds);
      CancelsInThree(policy, w, c, id, tenant, actor, at, failed, FateOf(fates, Reactivate) == Succeeds);
      CancelEnds(s, id, tenant, actor, at, fates, failed);
      steps := [ask] + ([act, save] + []);
      RunFirst(policy, w, ask, [act, save] + []);
      RunTwo(policy, w1, act, save, []);
    }
  }
}
