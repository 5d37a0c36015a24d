// The job part of the in-memory control store, updated in place. Each method is proved to do what
// module ProvisioningJobs reasons about.
module ProvisioningJobStore {
  import opened Common
  import opened ProvisioningJobs

  class InMemoryJobStore {
    var jobs: map<string, Job>
    var operatorKeys: map<(string, string), string>
    var manifestKeys: map<(string, string), string>

    constructor ()
      ensures View() == EMPTY_QUEUE
    {
      jobs, operatorKeys, manifestKeys := map[], map[], map[];
    }

    function View(): Queue
      reads this
    {
      Queue(jobs, operatorKeys, manifestKeys)
    }

    method Create(id: string, job: Job) returns (answer: string)
      modifies this
      ensures (View(), answer) == ProvisioningJobs.Create(old(View()), id, job)
    {
      var requestKey := (job.operator, job.key);
      if requestKey in operatorKeys { return operatorKeys[requestKey]; }
      var manifestKey := (job.tenant, job.fingerprint);
      if manifestKey in manifestKeys { return manifestKeys[manifestKey]; }
      jobs := jobs[id := job];
      operatorKeys := operatorKeys[requestKey := id];
      manifestKeys := manifestKeys[manifestKey := id];
      return id;
    }

    // The queued job that comes first by creation time and id.
    method FindOldest() returns (oldest: Option<string>)
      ensures oldest == OldestQueued(jobs)
      ensures oldest.None? ==> forall id | id in jobs :: !IsQueued(jobs, id)
    {
      oldest := None;
      var rest := jobs.Keys;
      while rest != {}
        invariant rest <= jobs.Keys
        invariant IsFirstAmong(jobs, oldest, jobs.Keys - rest)
        decreases |rest|
      {
        var id :| id in rest;
        ghost var seen := jobs.Keys - rest;
        rest := rest - {id};
        assert jobs.Keys - rest == seen + {id};
        if jobs[id].state == Queued && (oldest.None? || Before(jobs, id, oldest.value)) {
          FirstAmongWith(jobs, oldest, seen, id);
          oldest := Some(id);
        } else {
          StillFirst(jobs, oldest, seen, id);
        }
      }
      FirstOfAll(jobs, oldest);
    }

    method ClaimNext(worker: string, at: Instant) returns (claimed: Option<string>)
      modifies this`jobs
      ensures claimed == OldestQueued(old(jobs))
      ensures claimed.None? <==> forall id | id in old(jobs) :: old(jobs)[id].state != Queued
      ensures claimed.None? ==> jobs == old(jobs)
      ensures claimed.Some? ==> claimed.value in old(jobs) && old(jobs)[claimed.value].state == Queued
      ensures claimed.Some? ==> forall id | id in old(jobs) && old(jobs)[id].state == Queued && id != claimed.value ::
                || old(jobs)[claimed.value].createdAt < old(jobs)[id].createdAt
                || (old(jobs)[claimed.value].createdAt == old(jobs)[id].createdAt && Precedes(claimed.value, id))
      ensures claimed.Some? ==> claimed.value in old(jobs)
                                && jobs == old(jobs)[claimed.value := ClaimedJob(old(jobs)[claimed.value], worker, at)]
    {
      claimed := FindOldest();
      if claimed.Some? {
        forall id | id in jobs && jobs[id].state == Queued && id != claimed.value ensures Before(jobs, claimed.value, id) {
          assert IsQueued(jobs, id);
        }
        jobs := jobs[claimed.value := ClaimedJob(jobs[claimed.value], worker, at)];
      }
    }

    method Finish(id: string, worker: string, report: Report, at: Instant) returns (ok: bool)
      modifies this`jobs
      ensures ok == ProvisioningJobs.Finish(old(View()), id, worker, report, at).Ok?
      ensures View() == OrElse(ProvisioningJobs.Finish(old(View()), id, worker, report, at), old(View()))
    {
      if id !in jobs || jobs[id].state != Running || jobs[id].claimedBy != Some(worker) { return false; }
      jobs := jobs[id := Reported(jobs[id], report, at)];
      return true;
    }

    // The store's unconditional update.
    method UpdateState(id: string, state: JobState, now: Instant) returns (ok: bool)
      modifies this`jobs
      ensures ok == (id in old(jobs))
      ensures View() == if ok then ProvisioningJobs.UpdateState(old(View()), id, state, now) else old(View())
    {
      if id !in jobs { return false; }
      jobs := jobs[id := WithState(jobs[id], state, now)];
      return true;
    }

    // Cancel, retry or cleanup when nothing comes between the check and the update.
    method Request(id: string, move: Move, confirmation: string, tenantActive: bool, now: Instant) returns (ok: bool)
      modifies this`jobs
      ensures View() == OrElse(ProvisioningJobs.Request(old(View()), id, move, confirmation, tenantActive, now), old(View()))
      ensures ok == ProvisioningJobs.Request(old(View()), id, move, confirmation, tenantActive, now).Ok?
    {
      if id !in jobs || !Admits(jobs[id], move, confirmation, tenantActive) { return false; }
      ok := UpdateState(id, Target(move), now);
    }
  }

  // `first` is the oldest queued job of those seen so far, if there is one.
  predicate IsFirstAmong(jobs: map<string, Job>, first: Option<string>, seen: set<string>) {
    if first.None? then forall id | id in seen :: !IsQueued(jobs, id)
    else
      && first.value in seen && IsQueued(jobs, first.value)
      && forall id | id in seen && IsQueued(jobs, id) && id != first.value :: Before(jobs, first.value, id)
  }

  lemma FirstAmongWith(jobs: map<string, Job>, first: Option<string>, seen: set<string>, id: string)
    requires IsFirstAmong(jobs, first, seen) && IsQueued(jobs, id) && id !in seen
    requires first.Some? ==> Before(jobs, id, first.value)
    ensures IsFirstAmong(jobs, Some(id), seen + {id})
  {
    forall other | other in seen && IsQueued(jobs, other) ensures Before(jobs, id, other) {
      if other != first.value && jobs[id].createdAt == jobs[first.value].createdAt == jobs[other].createdAt {
        PrecedesIsTransitive(id, first.value, other);
      }
    }
  }

  lemma StillFirst(jobs: map<string, Job>, first: Option<string>, seen: set<string>, id: string)
    requires IsFirstAmong(jobs, first, seen) && id in jobs && id !in seen
    requires IsQueued(jobs, id) ==> first.Some? && !Before(jobs, id, first.value)
    ensures IsFirstAmong(jobs, first, seen + {id})
  {
    if first.Some? {
      PrecedesIsTotal(id, first.value);
    }
  }

  lemma FirstOfAll(jobs: map<string, Job>, first: Option<string>)
    requires IsFirstAmong(jobs, first, jobs.Keys)
    ensures first == OldestQueued(jobs)
  {
    if first.Some? {
      assert IsOldestQueued(jobs, first.value);
      OldestIsUnique(jobs, first.value, OldestQueued(jobs).value);
    }
  }
}
