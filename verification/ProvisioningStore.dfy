// The in-memory progress store and the provisioner's step loop. Every method is proved to do what
// module Provisioning says the call does.
module ProvisioningStore {
  import opened Common
  import opened Provisioning

  class InMemoryProvisioningStateStore {
    var states: States

    constructor ()
      ensures states == map[]
    {
      states := map[];
    }

    method Start(m: Manifest) returns (p: Option<Progress>)
      modifies this
      ensures Provisioning.Start(old(states), m).None? ==> p.None? && states == old(states)
      ensures Provisioning.Start(old(states), m).Some? ==>
                states == Provisioning.Start(old(states), m).value && m.tenant in states && p == Some(states[m.tenant])
    {
      var progress: Progress;
      if m.tenant !in states {
        progress := Progress(m.fingerprint, m.names, InProgress, [RecordControlState], None, None, 1);
      } else {
        var current := states[m.tenant];
        if current.fingerprint != m.fingerprint { return None; }
        if current.status == Active { return Some(current); }
        if !IsValidPrefix(current) { return None; }
        progress := current.(status := InProgress, failedStep := None, failureCode := None, attempt := current.attempt + 1);
      }
      states := states[m.tenant := progress];
      return Some(progress);
    }

    method MarkCompleted(tenant: string, step: Step) returns (p: Option<Progress>)
      modifies this
      ensures Provisioning.MarkCompleted(old(states), tenant, step).None? ==> p.None? && states == old(states)
      ensures Provisioning.MarkCompleted(old(states), tenant, step).Some? ==>
                states == Provisioning.MarkCompleted(old(states), tenant, step).value && tenant in states && p == Some(states[tenant])
    {
      if !Provisions(states, tenant) { return None; }
      var current := states[tenant];
      if step == Activate || Some(step) != NextStep(current.completed) { return None; }
      states := states[tenant := current.(completed := current.completed + [step])];
      return Some(states[tenant]);
    }

    method MarkFailed(tenant: string, step: Step, code: string) returns (ok: bool)
      modifies this
      ensures ok == Provisioning.MarkFailed(old(states), tenant, step, code).Some?
      ensures states == if ok then Provisioning.MarkFailed(old(states), tenant, step, code).value else old(states)
    {
      if !Provisions(states, tenant) { return false; }
      var current := states[tenant];
      if Some(step) != NextStep(current.completed) { return false; }
      states := states[tenant := current.(status := Failed, failedStep := Some(step), failureCode := Some(code))];
      return true;
    }

    method MarkActive(tenant: string) returns (p: Option<Progress>)
      modifies this
      ensures Provisioning.MarkActive(old(states), tenant).None? ==> p.None? && states == old(states)
      ensures Provisioning.MarkActive(old(states), tenant).Some? ==>
                states == Provisioning.MarkActive(old(states), tenant).value && tenant in states && p == Some(states[tenant])
    {
      if !Provisions(states, tenant) { return None; }
      var current := states[tenant];
      if NextStep(current.completed) != Some(Activate) { return None; }
      states := states[tenant := current.(status := Active, completed := current.completed + [Activate])];
      return Some(states[tenant]);
    }
  }

  class TenantProvisioner {
    const store: InMemoryProvisioningStateStore
    var log: map<string, seq<Executed>>

    constructor (store: InMemoryProvisioningStateStore)
      ensures this.store == store && log == map[]
    {
      this.store, log := store, map[];
    }

    function View(): State
      reads this, store
    {
      State(store.states, log)
    }

    method Execute(tenant: string, step: Step, ok: bool)
      modifies this
      ensures View() == Note(old(View()), tenant, Executed(step, ok))
    {
      log := log[tenant := (if tenant in log then log[tenant] else []) + [Executed(step, ok)]];
    }

    method GiveUp(m: Manifest, step: Step) returns (reply: Reply)
      modifies store
      ensures (View(), reply) == Fail(old(View()), m, step)
    {
      var ok := store.MarkFailed(m.tenant, step, "Exception");
      reply := if ok then FailedAt(step) else Conflict;
    }

    method ActivateTenant(m: Manifest, fates: Fates) returns (reply: Reply)
      modifies store
      ensures (View(), reply) == Finish(old(View()), m, fates)
    {
      if FateOf(fates, Activate) == DiesBefore || FateOf(fates, Activate) == RaisesAndDies { return Died; }
      if FateOf(fates, Activate) == Raises {
        reply := GiveUp(m, Activate);
        return;
      }
      var p := store.MarkActive(m.tenant);
      if p.None? {
        reply := GiveUp(m, Activate);
      } else {
        reply := if FateOf(fates, Activate) == DiesAfter then Died else Provisioned(p.value);
      }
    }

    method Apply(m: Manifest, fates: Fates) returns (reply: Reply)
      modifies this, store
      ensures (View(), reply) == Provisioning.Apply(old(View()), m, fates)
    {
      if m.tenant in store.states {
        var current := store.states[m.tenant];
        if current.fingerprint != m.fingerprint || !IsValidPrefix(current) { return Conflict; }
        if IsNoop(current) { return Provisioned(current); }
      }
      var started := store.Start(m);
      if started.None? { return Conflict; }
      var completed := started.value.completed;
      if completed[..Min(1, |completed|)] != [RecordControlState] { return Conflict; }
      reply := PerformSteps(m, completed, fates);
    }

    method TryStep(m: Manifest, step: Step, fates: Fates) returns (completed: seq<Step>, stopped: Option<Reply>)
      modifies this, store
      ensures Try(old(View()), m, step, fates)
           == if stopped.None? then Went(View(), completed) else Stopped(View(), stopped.value)
    {
      completed := [];
      match FateOf(fates, step) {
        case DiesBefore =>
          stopped := Some(Died);
        case DiesAfter =>
          Execute(m.tenant, step, true);
          stopped := Some(Died);
        case RaisesAndDies =>
          Execute(m.tenant, step, false);
          stopped := Some(Died);
        case Raises =>
          Execute(m.tenant, step, false);
          var reply := GiveUp(m, step);
          stopped := Some(reply);
        case Succeeds =>
          Execute(m.tenant, step, true);
          var p := store.MarkCompleted(m.tenant, step);
          if p.None? {
            var reply := GiveUp(m, step);
            stopped := Some(reply);
          } else {
            completed, stopped := p.value.completed, None;
          }
      }
    }

    // The loop of apply over the fixed order of steps.
    method PerformSteps(m: Manifest, found: seq<Step>, fates: Fates) returns (reply: Reply)
      modifies this, store
      ensures (View(), reply) == RunSteps(old(View()), m, found, 0, fates)
    {
      var completed, k := found, 0;
      while k < |STEPS|
        invariant k <= |STEPS|
        invariant RunSteps(old(View()), m, found, 0, fates) == RunSteps(View(), m, completed, k, fates)
      {
        var step := STEPS[k];
        if step !in completed {
          if step == Activate {
            reply := ActivateTenant(m, fates);
            return;
          }
          var now, stopped := TryStep(m, step, fates);
          if stopped.Some? { return stopped.value; }
          completed := now;
        }
        k := k + 1;
      }
      return Conflict;
    }
  }
}
