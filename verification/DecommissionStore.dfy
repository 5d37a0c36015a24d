// The decommission service and its in-memory store, with the loops and the field updates of the
// program. Every method is proved to do what module Decommission says the call does.
module DecommissionStore {
  import opened Common
  import opened Decommission

  class InMemoryDecommissionStore {
    var records: map<string, Record>
    var tombstones: map<string, Tombstone>

    constructor ()
      ensures records == map[] && tombstones == map[]
    {
      records, tombstones := map[], map[];
    }

    method FindOpen(tenant: string) returns (found: bool)
      ensures found == Open(records, tenant)
      ensures found <==> exists id :: id in records && records[id].resources.tenant == tenant && records[id].phase != Cancelled
    {
      found := false;
      var rest := records.Keys;
      while rest != {} && !found
        invariant rest <= records.Keys
        invariant forall id | id in records.Keys - rest && !found ::
          records[id].resources.tenant != tenant || records[id].phase == Cancelled
        invariant found ==> Open(records, tenant)
        decreases |rest|
      {
        var id :| id in rest;
        rest := rest - {id};
        found := records[id].resources.tenant == tenant && records[id].phase != Cancelled;
      }
    }

    // Compare-and-swap on the revision; None is the conflict.
    method SaveRecord(r: Record) returns (saved: Option<Record>)
      modifies this`records
      ensures saved == if RevisionMatches(old(records), r) then Some(Bumped(r)) else None
      ensures saved.Some? <==> r.revision == if r.id in old(records) then old(records)[r.id].revision else 0
      ensures saved.Some? ==> saved.value == r.(revision := r.revision + 1)
      ensures records == if saved.Some? then old(records)[r.id := saved.value] else old(records)
    {
      if r.id in records {
        if records[r.id].revision != r.revision { return None; }
      } else if r.revision != 0 {
        return None;
      }
      records := records[r.id := Bumped(r)];
      return Some(Bumped(r));
    }

    method ReplaceWithTombstone(r: Record, t: Tombstone) returns (ok: bool)
      modifies this
      ensures ok == (r.id in old(records) && old(records)[r.id] == r)
      ensures records == if ok then old(records) - {r.id} else old(records)
      ensures tombstones == if ok then old(tombstones)[t.id := t] else old(tombstones)
    {
      ok := r.id in records && records[r.id] == r;
      if ok {
        records, tombstones := records - {r.id}, tombstones[t.id := t];
      }
    }
  }

  class DecommissionService {
    const store: InMemoryDecommissionStore
    const policy: Policy
    var log: map<string, seq<Entry>>

    constructor (store: InMemoryDecommissionStore, policy: Policy)
      ensures this.store == store && this.policy == policy && log == map[]
    {
      this.store, this.policy, log := store, policy, map[];
    }

    function View(): State
      reads this, store
    {
      State(store.records, store.tombstones, log)
    }

    method Append(id: string, e: Entry)
      modifies this
      ensures View() == Note(old(View()), id, e)
    {
      log := log[id := (if id in log then log[id] else []) + [e]];
    }

    method SaveFailed(r: Record, a: Action, reply: Reply) returns (answer: Reply)
      modifies store
      ensures SaveFailure(old(View()), r, a, reply) == Halted(View(), answer)
    {
      var saved := store.SaveRecord(r.(lastFailed := Some(a)));
      answer := if saved.Some? then reply else Conflict;
    }

    // The step loop of request (suspension) and of finalize (destruction).
    method PerformSteps(r0: Record, part: Part, fates: Fates) returns (r: Record, stopped: Option<Reply>)
      modifies this, store
      ensures RunSteps(old(View()), r0, part, 0, fates)
           == if stopped.None? then Through(View(), r) else Halted(View(), stopped.value)
    {
      r := r0;
      var k := 0;
      while k < |Order(part)|
        invariant k <= |Order(part)|
        invariant RunSteps(old(View()), r0, part, 0, fates) == RunSteps(View(), r, part, k, fates)
      {
        var a := Order(part)[k];
        if a !in Completed(r, part) {
          match FateOf(fates, a) {
            case DiesBefore =>
              return r, Some(Died);
            case DiesAfter =>
              Append(r.id, Ran(a, true));
              return r, Some(Died);
            case RaisesAndDies =>
              Append(r.id, Ran(a, false));
              return r, Some(Died);
            case Succeeds =>
              Append(r.id, Ran(a, true));
              var saved := store.SaveRecord(Complete(r, part, a));
              if saved.None? { return r, Some(Conflict); }
              r := saved.value;
            case _ =>
              Append(r.id, Ran(a, false));
              var answer := SaveFailed(r, a, Failed(a));
              return r, Some(answer);
          }
        }
        k := k + 1;
      }
      return r, None;
    }

    method Request(id: string, resources: Resources, actor: string, reason: string, at: Instant,
            policyName: string, fates: Fates)
      returns (reply: Reply)
      modifies this, store
      ensures (View(), reply) == Decommission.Request(old(View()), id, resources, actor, reason, at, policyName, fates)
    {
      var r: Record;
      if id !in store.records {
        if id in store.tombstones { return Conflict; }
        var open := store.FindOpen(resources.tenant);
        if open { return Conflict; }
        var created := store.SaveRecord(NewRecord(id, resources, actor, reason, at, policyName));
        if created.None? { return Conflict; }
        Append(id, Requested(actor, at));
        r := created.value;
      } else {
        r := store.records[id];
        if !SamePayload(r, resources, actor, reason, policyName) { return Conflict; }
        if r.phase != Suspending { return Accepted(r); }
      }
      var done, stopped := PerformSteps(r, Suspend, fates);
      if stopped.Some? { return stopped.value; }
      if fates.diesBeforeClosing { return Died; }
      var saved := store.SaveRecord(done.(phase := Suspended, lastFailed := None));
      reply := if saved.Some? then Accepted(saved.value) else Conflict;
    }

    method Confirm(id: string, tenant: string, actor: string, e: Evidence, at: Instant,
            fates: Fates) returns (reply: Reply)
      modifies this, store
      ensures (View(), reply) == Decommission.Confirm(old(View()), policy, id, tenant, actor, e, at, fates)
    {
      if id !in store.records || store.records[id].resources.tenant != tenant { return Conflict; }
      var r := store.records[id];
      if actor == r.requestedBy { return Conflict; }
      if r.phase == Grace {
        return if r.confirmedBy == Some(actor) && r.evidence == Some(e) then Accepted(r) else Conflict;
      }
      if r.phase != Suspended || at < r.requestedAt { return Conflict; }
      var trusted := CheckEvidence(e, at);
      if !trusted { return NotReady; }
      match FateOf(fates, VerifyEvidence) {
        case Refuses => return NotReady;
        case Raises => return Failed(VerifyEvidence);
        case Succeeds =>
        case _ => return Died;
      }
      Append(id, Confirmed(actor, at, e));
      var saved := store.SaveRecord(
        r.(phase := Grace, confirmedBy := Some(actor), confirmedAt := Some(at),
           graceEndsAt := Some(at + policy.gracePeriod), evidence := Some(e), lastFailed := None));
      reply := if saved.Some? then Accepted(saved.value) else Conflict;
    }

    method CheckEvidence(e: Evidence, now: Instant) returns (ok: bool)
      ensures ok == Trustworthy(policy, e, now)
      ensures ok <==>
              && e.complete && e.integrityVerified && e.verifiedAt <= now
              && (e.isBackup ==> 0 <= now - e.createdAt <= policy.backupMaxAge)
              && (!e.isBackup ==> e.explicitlyAccepted)
    {
      if !e.complete || !e.integrityVerified { return false; }
      if e.isBackup {
        if now - e.createdAt > policy.backupMaxAge { return false; }
        if e.createdAt > now { return false; }
      } else if !e.explicitlyAccepted {
        return false;
      }
      ok := e.verifiedAt <= now;
    }

    method Cancel(id: string, tenant: string, actor: string, at: Instant, fates: Fates) returns (reply: Reply)
      modifies this, store
      ensures (View(), reply) == Decommission.Cancel(old(View()), id, tenant, actor, at, fates)
    {
      if id !in store.records || store.records[id].resources.tenant != tenant { return Conflict; }
      var r := store.records[id];
      if r.phase == Cancelled { return Accepted(r); }
      if r.phase != Grace { return Conflict; }
      if r.graceEndsAt.None? || at >= r.graceEndsAt.value { return Conflict; }
      var stopped := PerformChecks(r, fates);
      if stopped.Some? { return stopped.value; }
      match FateOf(fates, Reactivate) {
        case DiesBefore => return Died;
        case DiesAfter =>
          Append(r.id, Ran(Reactivate, true));
          return Died;
        case RaisesAndDies =>
          Append(r.id, Ran(Reactivate, false));
          return Died;
        case Succeeds =>
          Append(r.id, Ran(Reactivate, true));
          var saved := store.SaveRecord(
            r.(phase := Cancelled, cancelledBy := Some(actor), cancelledAt := Some(at), lastFailed := None));
          return if saved.Some? then Accepted(saved.value) else Conflict;
        case _ =>
          Append(r.id, Ran(Reactivate, false));
          reply := SaveFailed(r, Reactivate, Failed(Reactivate));
      }
    }

    method PerformChecks(r: Record, fates: Fates) returns (stopped: Option<Reply>)
      modifies this, store
      ensures RunChecks(old(View()), r, 0, fates)
           == if stopped.None? then Through(View(), r) else Halted(View(), stopped.value)
    {
      var k := 0;
      while k < |CHECKS|
        invariant k <= |CHECKS|
        invariant RunChecks(old(View()), r, 0, fates) == RunChecks(View(), r, k, fates)
      {
        var a := CHECKS[k];
        match FateOf(fates, a) {
          case DiesBefore =>
            return Some(Died);
          case DiesAfter =>
            Append(r.id, Ran(a, true));
            return Some(Died);
          case RaisesAndDies =>
            Append(r.id, Ran(a, false));
            return Some(Died);
          case Succeeds =>
            Append(r.id, Ran(a, true));
          case Refuses =>
            Append(r.id, Ran(a, false));
            var answer := SaveFailed(r, a, NotReady);
            return Some(answer);
          case Raises =>
            Append(r.id, Ran(a, false));
            var answer := SaveFailed(r, a, Failed(a));
            return Some(answer);
        }
        k := k + 1;
      }
      return None;
    }

    method Finalize(id: string, tenant: string, at: Instant, fates: Fates) returns (reply: Reply)
      modifies this, store
      ensures (View(), reply) == Decommission.Finalize(old(View()), id, tenant, at, fates)
    {
      if id in store.tombstones {
        return if store.tombstones[id].tenant != tenant then Conflict else Destroyed(store.tombstones[id]);
      }
      if id !in store.records || store.records[id].resources.tenant != tenant { return Conflict; }
      var r := store.records[id];
      if r.phase == Grace {
        if r.graceEndsAt.None? || at < r.graceEndsAt.value { return NotReady; }
        var saved := store.SaveRecord(r.(phase := Finalizing, lastFailed := None));
        if saved.None? { return Conflict; }
        Append(id, Admitted(at));
        r := saved.value;
      } else if r.phase != Finalizing {
        return Conflict;
      }
      var done, stopped := PerformSteps(r, Destroy, fates);
      if stopped.Some? { return stopped.value; }
      if done.confirmedBy.None? { return Conflict; }
      if fates.diesBeforeClosing { return Died; }
      var t := TombstoneFor(done, at);
      var ok := store.ReplaceWithTombstone(done, t);
      if !ok { return Conflict; }
      Append(done.id, Buried(at));
      return Destroyed(t);
    }
  }
}
