// What exactly each operation on a provisioning job asks for and leaves behind.
module ProvisioningJobsExact {
  import opened Common
  import opened ProvisioningJobs

  // A known operator key answers first, then a known manifest, and both leave the queue alone; a
  // new request is queued and indexed under both.
  lemma CreateExactly(q: Queue, id: string, tenant: string, fingerprint: string, key: string, operator: string, now: Instant)
    ensures var (q', answer) := Create(q, id, NewJob(tenant, fingerprint, key, operator, now));
            if (operator, key) in q.operatorKeys then q' == q && answer == q.operatorKeys[(operator, key)]
            else if (tenant, fingerprint) in q.manifestKeys then q' == q && answer == q.manifestKeys[(tenant, fingerprint)]
            else
              && answer == id
              && q' == Queue(q.jobs[id := Job(tenant, fingerprint, key, operator, Queued, now, now, 0, [], None, None, None, None,
                                              None, None, None)],
                             q.operatorKeys[(operator, key) := id], q.manifestKeys[(tenant, fingerprint) := id])
  {
  }

  // A claim takes a queued job to its next attempt and names the worker; everything else of it stays.
  lemma ClaimExactly(job: Job, worker: string, at: Instant)
    ensures ClaimedJob(job, worker, at) ==
      Job(job.tenant, job.fingerprint, job.key, job.operator, Running, job.createdAt, at, job.attempt + 1,
          job.completedSteps, job.failedStep, job.failureCode, Some(worker), Some(at), job.cancelRequestedAt,
          job.cleanupRequestedAt, job.cleanupCompletedAt)
  {
  }

  // Code-point order: the first difference decides, and a prefix comes first.
  lemma {:induction false} PrecedesExactly(a: string, b: string)
    ensures Precedes(a, b) <==>
      || (|a| < |b| && a == b[..|a|])
      || exists k :: 0 <= k < |a| && k < |b| && a[..k] == b[..k] && a[k] < b[k]
    decreases |a|
  {
    if a != "" && b != "" && a[0] == b[0] {
      PrecedesExactly(a[1..], b[1..]);
      if |a| < |b| && a == b[..|a|] { assert a[1..] == b[1..][..|a[1..]|]; }
      if |a[1..]| < |b[1..]| && a[1..] == b[1..][..|a[1..]|] { assert a == b[..|a|]; }
      if k :| 0 <= k < |a| && k < |b| && a[..k] == b[..k] && a[k] < b[k] {
        assert a[1..][..k - 1] == a[..k][1..] == b[..k][1..] == b[1..][..k - 1] && a[1..][k - 1] < b[1..][k - 1];
      }
      if k :| 0 <= k < |a[1..]| && k < |b[1..]| && a[1..][..k] == b[1..][..k] && a[1..][k] < b[1..][k] {
        assert a[..k + 1] == [a[0]] + a[1..][..k] && b[..k + 1] == [b[0]] + b[1..][..k] && a[k + 1] < b[k + 1];
      }
    } else if a != "" && b != "" {
      assert a[..0] == b[..0];
      forall k | 0 < k < |a| && k < |b| ensures a[..k] != b[..k] { assert a[..k][0] != b[..k][0]; }
      assert a != b[..if |a| < |b| then |a| else |b|];
    }
  }

  // A report is taken exactly from the worker that holds the running job. Success records the
  // steps and clears the failure; failure records its step and code and leaves the steps alone.
  lemma FinishExactly(q: Queue, id: string, worker: string, report: Report, at: Instant)
    ensures var r := Finish(q, id, worker, report, at);
            && (r == Err(NotFound) <==> id !in q.jobs)
            && (r.Ok? <==> id in q.jobs && q.jobs[id].state == Running && q.jobs[id].claimedBy == Some(worker))
            && (r.Err? && id in q.jobs ==> r.error == Conflict)
            && (r.Ok? ==>
                  && r.value.operatorKeys == q.operatorKeys && r.value.manifestKeys == q.manifestKeys
                  && var job := q.jobs[id];
                     r.value.jobs == q.jobs[id :=
                       match report
                       case Active(steps) => job.(state := Succeeded, completedSteps := steps, failedStep := None,
                                                  failureCode := None, updatedAt := at)
                       case Broken(step, code) => job.(state := Failed, failedStep := step, failureCode := Some(code), updatedAt := at)])
  {
  }

  // Only a queued or running job can be cancelled; only a failed or canceled one, or one whose
  // cancellation is requested, retried or cleaned up, and cleaned up only with the confirmation
  // "cleanup " and the tenant's name, while the tenant is not active.
  predicate IsAllowed(job: Job, move: Move, confirmation: string, tenantActive: bool) {
    match move
    case ToCancel => job.state == Queued || job.state == Running
    case ToRetry => job.state == Failed || job.state == Canceled || job.state == CancelRequested
    case ToCleanup =>
      && (job.state == Failed || job.state == Canceled || job.state == CancelRequested)
      && |confirmation| == 8 + |job.tenant| && confirmation[..8] == "cleanup " && confirmation[8..] == job.tenant
      && !tenantActive
  }

  // A retry makes the job as if it were queued for the first time but for its attempts and times;
  // the other two only note when they were asked for.
  lemma RequestExactly(q: Queue, id: string, move: Move, confirmation: string, tenantActive: bool, now: Instant)
    ensures var r := Request(q, id, move, confirmation, tenantActive, now);
            && (r == Err(NotFound) <==> id !in q.jobs)
            && (r == Err(Invalid) <==> id in q.jobs && !IsAllowed(q.jobs[id], move, confirmation, tenantActive))
            && (r.Ok? <==> id in q.jobs && IsAllowed(q.jobs[id], move, confirmation, tenantActive))
            && (r.Ok? ==>
                  && r.value.operatorKeys == q.operatorKeys && r.value.manifestKeys == q.manifestKeys
                  && var job := q.jobs[id];
                     r.value.jobs == q.jobs[id :=
                       match move
                       case ToCancel => job.(state := CancelRequested, updatedAt := now, cancelRequestedAt := Some(now))
                       case ToRetry => job.(state := Queued, updatedAt := now, claimedBy := None, claimedAt := None,
                                            completedSteps := [], failedStep := None, failureCode := None)
                       case ToCleanup => job.(state := CleanupRequested, updatedAt := now, cleanupRequestedAt := Some(now))])
  {
    if id in q.jobs {
      var phrase := "cleanup " + q.jobs[id].tenant;
      assert phrase[..8] == "cleanup " && phrase[8..] == q.jobs[id].tenant;
      if |confirmation| >= 8 { assert confirmation == confirmation[..8] + confirmation[8..]; }
    }
  }

  // The store's update has no checks; it also completes a cleanup.
  lemma UpdateExactly(q: Queue, id: string, state: JobState, now: Instant)
    requires id in q.jobs
    ensures var q', job := UpdateState(q, id, state, now), q.jobs[id];
            && q'.operatorKeys == q.operatorKeys && q'.manifestKeys == q.manifestKeys
            && q'.jobs == q.jobs[id := q'.jobs[id]]
            && q'.jobs[id].state == state && q'.jobs[id].updatedAt == now
            && q'.jobs[id].attempt == job.attempt && q'.jobs[id].createdAt == job.createdAt
            && q'.jobs[id].cancelRequestedAt == (if state == CancelRequested then Some(now) else job.cancelRequestedAt)
            && q'.jobs[id].cleanupRequestedAt == (if state == CleanupRequested then Some(now) else job.cleanupRequestedAt)
            && q'.jobs[id].cleanupCompletedAt == (if state == CleanedUp then Some(now) else job.cleanupCompletedAt)
            && q'.jobs[id].claimedBy == (if state == Queued then None else job.claimedBy)
            && q'.jobs[id].completedSteps == (if state == Queued then [] else job.completedSteps)
  {
  }
}
