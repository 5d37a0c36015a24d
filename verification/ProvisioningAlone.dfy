// The overlapping calls of module ProvisioningRace are the calls of module Provisioning taken apart:
// made without anyone in between, a call ends in the same recorded progress, whichever step fails.
module ProvisioningAlone {
  import opened Common
  import opened Provisioning
  import opened ProvisioningRace

  // Adapter calls come back or raise; that the process dies is the race's own event.
  predicate Survives(fates: Fates) {
    (forall step | step in fates :: fates[step] == Succeeds || fates[step] == Raises) && FateOf(fates, Activate) == Succeeds
  }

  // The caller goes on with its call, and no other moves.
  predicate GoesOn(events: seq<Event>, c: Caller) {
    forall e | e in events :: e.ContinueEvent? && e.c == c
  }

  predicate EndsAs(w: World, w': World, c: Caller, states: States) {
    w'.states == states && c !in w'.callers && w'.callers - {c} == w.callers - {c}
  }

  lemma RunFirst(w: World, e: Event, rest: seq<Event>)
    ensures ProvisioningRace.Run(w, [e] + rest) == ProvisioningRace.Run(ProvisioningRace.Apply(w, e), rest)
  {
    assert ([e] + rest)[1..] == rest;
  }

  lemma RunLast(w: World, e: Event)
    ensures ProvisioningRace.Run(w, [e]) == ProvisioningRace.Apply(w, e)
  {
    RunFirst(w, e, []);
    assert [e] + [] == [e];
  }

  lemma {:induction false} PendingFrom(completed: seq<Step>, j: nat, k: nat)
    requires j <= k <= |STEPS| && forall i | j <= i < k :: STEPS[i] in completed
    ensures Pending(completed, j) == Pending(completed, k)
    decreases k - j
  {
    if j < k { PendingFrom(completed, j + 1, k); }
  }

  ghost predicate IsTrying(w: World, c: Caller, m: Manifest, completed: seq<Step>, k: nat, states: States) {
    && w.states == states && k <= |STEPS|
    && c in w.callers && w.callers[c].Trying? && w.callers[c].m == m && w.callers[c].completed == completed
    && w.callers[c].k <= k && forall i | w.callers[c].k <= i < k :: STEPS[i] in completed
  }

  // A step that raised, or whose record could not be made, is noted as failed.
  lemma AloneBreaks(w: World, s: State, c: Caller, m: Manifest, step: Step) returns (events: seq<Event>)
    requires c in w.callers && w.callers[c] == Failing(m, step) && s.states == w.states
    ensures GoesOn(events, c) && EndsAs(w, ProvisioningRace.Run(w, events), c, Fail(s, m, step).0.states)
  {
    events := [ContinueEvent(c, true)];
    RunLast(w, ContinueEvent(c, true));
  }

  lemma AloneActivates(w: World, s: State, c: Caller, m: Manifest, completed: seq<Step>, k: nat, fates: Fates)
    returns (events: seq<Event>)
    requires Survives(fates) && IsTrying(w, c, m, completed, k, s.states)
    requires k < |STEPS| && STEPS[k] == Activate && Activate !in completed
    ensures GoesOn(events, c) && EndsAs(w, ProvisioningRace.Run(w, events), c, Finish(s, m, fates).0.states)
  {
    PendingFrom(completed, w.callers[c].k, k);
    var go := ContinueEvent(c, true);
    var w1 := ProvisioningRace.Apply(w, go);
    if MarkActive(w.states, m.tenant).Some? {
      events := [go];
      RunLast(w, go);
    } else {
      var rest := AloneBreaks(w1, s, c, m, Activate);
      events := [go] + rest;
      RunFirst(w, go, rest);
    }
  }

  lemma AloneFails(w: World, s: State, c: Caller, m: Manifest, completed: seq<Step>, k: nat, fates: Fates)
    returns (events: seq<Event>)
    requires Survives(fates) && IsTrying(w, c, m, completed, k, s.states)
    requires k < |STEPS| && STEPS[k] != Activate && STEPS[k] !in completed && FateOf(fates, STEPS[k]) == Raises
    ensures GoesOn(events, c) && EndsAs(w, ProvisioningRace.Run(w, events), c, Provisioning.Try(s, m, STEPS[k], fates).s.states)
  {
    PendingFrom(completed, w.callers[c].k, k);
    var w1 := ProvisioningRace.Apply(w, ContinueEvent(c, false));
    var rest := AloneBreaks(w1, Note(s, m.tenant, Executed(STEPS[k], false)), c, m, STEPS[k]);
    events := [ContinueEvent(c, false)] + rest;
    RunFirst(w, ContinueEvent(c, false), rest);
  }

  lemma {:induction false} AloneSteps(w: World, s: State, c: Caller, m: Manifest, completed: seq<Step>, k: nat, fates: Fates)
    returns (events: seq<Event>)
    requires Survives(fates) && IsTrying(w, c, m, completed, k, s.states)
    ensures GoesOn(events, c) && EndsAs(w, ProvisioningRace.Run(w, events), c, RunSteps(s, m, completed, k, fates).0.states)
    decreases |STEPS| - k
  {
    if k == |STEPS| {
      PendingFrom(completed, w.callers[c].k, k);
      events := [ContinueEvent(c, true)];
      RunLast(w, ContinueEvent(c, true));
    } else if STEPS[k] in completed {
      events := AloneSteps(w, s, c, m, completed, k + 1, fates);
    } else if STEPS[k] == Activate {
      events := AloneActivates(w, s, c, m, completed, k, fates);
    } else if FateOf(fates, STEPS[k]) == Raises {
      events := AloneFails(w, s, c, m, completed, k, fates);
    } else {
      events := AloneSucceeds(w, s, c, m, completed, k, fates);
    }
  }

  // The step goes through and is recorded; the call goes on, or ends if the record is refused.
  lemma AloneSucceeds(w: World, s: State, c: Caller, m: Manifest, completed: seq<Step>, k: nat, fates: Fates)
    returns (events: seq<Event>)
    requires Survives(fates) && IsTrying(w, c, m, completed, k, s.states)
    requires k < |STEPS| && STEPS[k] != Activate && STEPS[k] !in completed && FateOf(fates, STEPS[k]) == Succeeds
    ensures GoesOn(events, c) && EndsAs(w, ProvisioningRace.Run(w, events), c, RunSteps(s, m, completed, k, fates).0.states)
    decreases |STEPS| - k, 0
  {
    PendingFrom(completed, w.callers[c].k, k);
    var go := ContinueEvent(c, true);
    var w1 := ProvisioningRace.Apply(w, go);
    var w2 := ProvisioningRace.Apply(w1, go);
    var a := Provisioning.Try(s, m, STEPS[k], fates);
    assert w1.callers[c] == Marking(m, k) && w1.states == w.states;
    var rest: seq<Event>;
    if a.Went? {
      rest := AloneSteps(w2, a.s, c, m, a.completed, k + 1, fates);
    } else {
      rest := AloneBreaks(w2, Note(s, m.tenant, Executed(STEPS[k], true)), c, m, STEPS[k]);
    }
    events := [go] + ([go] + rest);
    RunFirst(w, go, [go] + rest);
    RunFirst(w1, go, rest);
  }

  // One whole call.
  lemma AloneApplies(w: World, s: State, c: Caller, m: Manifest, fates: Fates) returns (events: seq<Event>)
    requires Survives(fates) && c !in w.callers && s.states == w.states
    ensures events != [] && events[0] == BeginEvent(c, m) && GoesOn(events[1..], c)
    ensures EndsAs(w, ProvisioningRace.Run(w, events), c, Provisioning.Apply(s, m, fates).0.states)
  {
    var begin, go := BeginEvent(c, m), ContinueEvent(c, true);
    var w1 := ProvisioningRace.Apply(w, begin);
    if c !in w1.callers {
      events := [begin];
      RunLast(w, begin);
    } else {
      var w2 := ProvisioningRace.Apply(w1, go);
      var rest: seq<Event> := [];
      if c in w2.callers {
        var states := Start(w.states, m).value;
        rest := AloneSteps(w2, s.(states := states), c, m, states[m.tenant].completed, 0, fates);
      }
      events := [begin] + ([go] + rest);
      RunFirst(w, begin, [go] + rest);
      RunFirst(w1, go, rest);
    }
  }
}
