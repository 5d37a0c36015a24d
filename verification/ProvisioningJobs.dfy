// The queue of tenant provisioning jobs and the workers that claim them. Workers run
// interleaved with operators who create, cancel, retry and clean up jobs, and a worker can die
// at any point between its claim and its report.
module ProvisioningJobs {
  import opened Common

  type Instant = int

  datatype JobState =
    | Queued | Running | Succeeded | Failed | CancelRequested | Canceled | CleanupRequested | CleanedUp

  datatype Job = Job(
    tenant: string,
    fingerprint: string,
    key: string,
    operator: string,
    state: JobState,
    createdAt: Instant,
    updatedAt: Instant,
    attempt: nat,
    completedSteps: seq<string>,
    failedStep: Option<string>,
    failureCode: Option<string>,
    claimedBy: Option<string>,
    claimedAt: Option<Instant>,
    cancelRequestedAt: Option<Instant>,
    cleanupRequestedAt: Option<Instant>,
    cleanupCompletedAt: Option<Instant>)

  // The store: jobs and the two indexes that make creation idempotent.
  datatype Queue = Queue(
    jobs: map<string, Job>,
    operatorKeys: map<(string, string), string>,
    manifestKeys: map<(string, string), string>)

  const EMPTY_QUEUE := Queue(map[], map[], map[])

  datatype Error = NotFound | Conflict | Invalid

  // ---------------------------------------------------------------------------
  // The store's operations
  // ---------------------------------------------------------------------------

  function NewJob(tenant: string, fingerprint: string, key: string, operator: string, now: Instant): Job {
    Job(tenant, fingerprint, key, operator, Queued, now, now, 0, [], None, None, None, None, None, None, None)
  }

  // Answers the id of the job that stands for the request. An answer from the manifest index
  // does not record the operator's key.
  function Create(q: Queue, id: string, job: Job): (Queue, string) {
    var requestKey, manifestKey := (job.operator, job.key), (job.tenant, job.fingerprint);
    if requestKey in q.operatorKeys then (q, q.operatorKeys[requestKey])
    else if manifestKey in q.manifestKeys then (q, q.manifestKeys[manifestKey])
    else (Queue(q.jobs[id := job], q.operatorKeys[requestKey := id], q.manifestKeys[manifestKey := id]), id)
  }

  function WithState(job: Job, state: JobState, at: Instant): Job {
    var moved := job.(state := state, updatedAt := at);
    match state
    case Queued =>
      moved.(claimedBy := None, claimedAt := None, completedSteps := [], failedStep := None, failureCode := None)
    case CancelRequested => moved.(cancelRequestedAt := Some(at))
    case CleanupRequested => moved.(cleanupRequestedAt := Some(at))
    case CleanedUp => moved.(cleanupCompletedAt := Some(at))
    case _ => moved
  }

  // Code-point order of strings, with which ties on the creation time are broken.
  predicate Precedes(a: string, b: string) {
    if b == "" then false
    else if a == "" then true
    else a[0] < b[0] || (a[0] == b[0] && Precedes(a[1..], b[1..]))
  }

  predicate Before(jobs: map<string, Job>, a: string, b: string)
    requires a in jobs && b in jobs
  {
    jobs[a].createdAt < jobs[b].createdAt || (jobs[a].createdAt == jobs[b].createdAt && Precedes(a, b))
  }

  predicate IsQueued(jobs: map<string, Job>, id: string) {
    id in jobs && jobs[id].state == Queued
  }

  ghost predicate IsOldestQueued(jobs: map<string, Job>, id: string) {
    IsQueued(jobs, id) && forall other | IsQueued(jobs, other) && other != id :: Before(jobs, id, other)
  }

  ghost function OldestQueued(jobs: map<string, Job>): (r: Option<string>)
    ensures r.Some? ==> IsOldestQueued(jobs, r.value)
  {
    if exists id :: IsOldestQueued(jobs, id) then
      var id :| IsOldestQueued(jobs, id);
      Some(id)
    else None
  }

  function ClaimedJob(job: Job, worker: string, at: Instant): Job {
    job.(state := Running, attempt := job.attempt + 1, claimedBy := Some(worker), claimedAt := Some(at), updatedAt := at)
  }

  predicate HeldBy(q: Queue, id: string, worker: string) {
    id in q.jobs && q.jobs[id].state == Running && q.jobs[id].claimedBy == Some(worker)
  }

  // What a worker reports when its provisioner call is over.
  datatype Report = Active(steps: seq<string>) | Broken(step: Option<string>, code: string)

  function Reported(job: Job, report: Report, at: Instant): Job {
    match report
    case Active(steps) =>
      job.(state := Succeeded, completedSteps := steps, failedStep := None, failureCode := None, updatedAt := at)
    case Broken(step, code) => job.(state := Failed, failedStep := step, failureCode := Some(code), updatedAt := at)
  }

  function Finish(q: Queue, id: string, worker: string, report: Report, at: Instant): Result<Queue, Error> {
    if id !in q.jobs then Err(NotFound)
    else if !HeldBy(q, id, worker) then Err(Conflict)
    else Ok(q.(jobs := q.jobs[id := Reported(q.jobs[id], report, at)]))
  }

  // What an operator can ask of a job, the states the request is meant for, and where it leads.
  datatype Move = ToCancel | ToRetry | ToCleanup

  function MeantFor(move: Move): set<JobState> {
    if move == ToCancel then {Queued, Running} else {Failed, Canceled, CancelRequested}
  }

  function Target(move: Move): JobState {
    match move
    case ToCancel => CancelRequested
    case ToRetry => Queued
    case ToCleanup => CleanupRequested
  }

  // The request's checks, made on the job as it was read.
  predicate Admits(job: Job, move: Move, confirmation: string, tenantActive: bool) {
    && job.state in MeantFor(move)
    && (move == ToCleanup ==> confirmation == "cleanup " + job.tenant && !tenantActive)
  }

  // The store's update looks at nothing but the id.
  function UpdateState(q: Queue, id: string, state: JobState, now: Instant): Queue
    requires id in q.jobs
  {
    q.(jobs := q.jobs[id := WithState(q.jobs[id], state, now)])
  }

  // A whole request with nothing in between.
  function Request(q: Queue, id: string, move: Move, confirmation: string, tenantActive: bool, now: Instant): Result<Queue, Error> {
    if id !in q.jobs then Err(NotFound)
    else if !Admits(q.jobs[id], move, confirmation, tenantActive) then Err(Invalid)
    else Ok(UpdateState(q, id, Target(move), now))
  }

  // ---------------------------------------------------------------------------
  // Workers and operators, interleaved
  // ---------------------------------------------------------------------------

  // What a worker is executing: the job as its claim returned it.
  datatype Flight = Flight(job: string, attempt: nat)

  // An operator's request whose checks have passed: the state it read and the update it will make.
  datatype Intent = Intent(job: string, move: Move, seen: JobState)

  // `claims` lists, job by job, the workers that claimed it, oldest first.
  datatype World = World(
    q: Queue,
    flights: map<string, Flight>,
    requests: map<string, Intent>,
    claims: map<string, seq<string>>)

  const START := World(EMPTY_QUEUE, map[], map[], map[])

  datatype Step =
    | CreateStep(id: string, tenant: string, fingerprint: string, key: string, operator: string)
    | AskStep(request: string, id: string, move: Move, confirmation: string, tenantActive: bool)
    | WriteStep(request: string)
    | DropStep(request: string)
    | ClaimStep(worker: string)
    | FinishStep(worker: string, report: Report)
    | CrashStep(worker: string)

  function ClaimsOf(w: World, id: string): seq<string> {
    ClaimsIn(w.claims, id)
  }

  function OrElse(r: Result<Queue, Error>, q: Queue): Queue {
    match r case Ok(q') => q' case Err(_) => q
  }

  ghost function Claim(w: World, worker: string, now: Instant): World {
    if worker in w.flights then w
    else match OldestQueued(w.q.jobs)
      case None => w
      case Some(id) => Take(w, id, worker, now)
  }

  function Take(w: World, id: string, worker: string, now: Instant): World
    requires id in w.q.jobs
  {
    var job := ClaimedJob(w.q.jobs[id], worker, now);
    w.(q := w.q.(jobs := w.q.jobs[id := job]), flights := w.flights[worker := Flight(id, job.attempt)],
       claims := w.claims[id := ClaimsOf(w, id) + [worker]])
  }

  // A request reads and checks the job in one step and updates it in another.
  function Ask(w: World, request: string, id: string, move: Move, confirmation: string, tenantActive: bool): World {
    if request in w.requests || id !in w.q.jobs || !Admits(w.q.jobs[id], move, confirmation, tenantActive) then w
    else w.(requests := w.requests[request := Intent(id, move, w.q.jobs[id].state)])
  }

  function Write(w: World, request: string, now: Instant): World {
    if request !in w.requests || w.requests[request].job !in w.q.jobs then w
    else w.(q := UpdateState(w.q, w.requests[request].job, Target(w.requests[request].move), now),
            requests := w.requests - {request})
  }

  // Ids are drawn fresh; a worker runs one claim at a time and makes at most one report for it.
  ghost function Apply(w: World, st: Step, now: Instant): World {
    match st
    case CreateStep(id, tenant, fingerprint, key, operator) =>
      if id in w.q.jobs then w else w.(q := Create(w.q, id, NewJob(tenant, fingerprint, key, operator, now)).0)
    case AskStep(request, id, move, confirmation, tenantActive) => Ask(w, request, id, move, confirmation, tenantActive)
    case WriteStep(request) => Write(w, request, now)
    case DropStep(request) => w.(requests := w.requests - {request})
    case ClaimStep(worker) => Claim(w, worker, now)
    case FinishStep(worker, report) =>
      if worker !in w.flights then w
      else w.(q := OrElse(Finish(w.q, w.flights[worker].job, worker, report, now), w.q), flights := w.flights - {worker})
    case CrashStep(worker) => w.(flights := w.flights - {worker})
  }

  datatype Event = Event(step: Step, now: Instant)

  ghost function Run(w: World, events: seq<Event>): World
    decreases |events|
  {
    if events == [] then w else Run(Apply(w, events[0].step, events[0].now), events[1..])
  }

  // ---------------------------------------------------------------------------
  // The oldest queued job
  // ---------------------------------------------------------------------------

  lemma {:induction false} PrecedesIsTotal(a: string, b: string)
    requires a != b
    ensures Precedes(a, b) != Precedes(b, a)
    decreases |a|
  {
    if a != "" && b != "" && a[0] == b[0] {
      assert a == [a[0]] + a[1..] && b == [b[0]] + b[1..];
      PrecedesIsTotal(a[1..], b[1..]);
    }
  }

  lemma {:induction false} PrecedesIsTransitive(a: string, b: string, c: string)
    requires Precedes(a, b) && Precedes(b, c)
    ensures Precedes(a, c)
    decreases |a|
  {
    if a != "" && a[0] == b[0] == c[0] {
      PrecedesIsTransitive(a[1..], b[1..], c[1..]);
    }
  }

  lemma OldestIsUnique(jobs: map<string, Job>, a: string, b: string)
    requires IsOldestQueued(jobs, a) && IsOldestQueued(jobs, b)
    ensures a == b
  {
    if a != b {
      PrecedesIsTotal(a, b);
    }
  }

  // ---------------------------------------------------------------------------
  // The invariant
  // ---------------------------------------------------------------------------

  // Both indexes lead from a job's identity back to it.
  predicate Indexed(q: Queue, id: string, job: Job) {
    && (job.operator, job.key) in q.operatorKeys && q.operatorKeys[(job.operator, job.key)] == id
    && (job.tenant, job.fingerprint) in q.manifestKeys && q.manifestKeys[(job.tenant, job.fingerprint)] == id
  }

  predicate AttemptFits(job: Job, claims: seq<string>) {
    && job.attempt == |claims|
    && (job.state == Running ==> job.claimedBy.Some?)
    && (job.claimedBy.Some? ==> claims != [] && claims[|claims| - 1] == job.claimedBy.value)
  }

  function ClaimsIn(claims: map<string, seq<string>>, id: string): seq<string> {
    if id in claims then claims[id] else []
  }

  predicate JobFits(q: Queue, claims: map<string, seq<string>>, id: string)
    requires id in q.jobs
  {
    Indexed(q, id, q.jobs[id]) && AttemptFits(q.jobs[id], ClaimsIn(claims, id))
  }

  predicate JobsFit(q: Queue, claims: map<string, seq<string>>) {
    && (forall id | id in q.jobs :: JobFits(q, claims, id))
    && (forall k | k in q.operatorKeys :: q.operatorKeys[k] in q.jobs)
    && (forall k | k in q.manifestKeys :: q.manifestKeys[k] in q.jobs)
    && claims.Keys <= q.jobs.Keys
  }

  // The worker made the claim it is executing, and none of that job since.
  predicate ClaimedIn(claims: seq<string>, attempt: nat, worker: string) {
    && 1 <= attempt <= |claims| && claims[attempt - 1] == worker
    && (forall i | attempt <= i < |claims| :: claims[i] != worker)
  }

  predicate FlightsFit(flights: map<string, Flight>, claims: map<string, seq<string>>) {
    forall worker | worker in flights :: ClaimedIn(ClaimsIn(claims, flights[worker].job), flights[worker].attempt, worker)
  }

  predicate RequestsFit(requests: map<string, Intent>, ids: set<string>) {
    forall o | o in requests :: requests[o].job in ids && requests[o].seen in MeantFor(requests[o].move)
  }

  predicate Inv(w: World) {
    JobsFit(w.q, w.claims) && FlightsFit(w.flights, w.claims) && RequestsFit(w.requests, w.q.jobs.Keys)
  }

  predicate SameIdentity(a: Job, b: Job) {
    a.tenant == b.tenant && a.fingerprint == b.fingerprint && a.key == b.key && a.operator == b.operator
  }

  // Rewriting one job, and adding to its claims, without touching its identity.
  lemma RewriteKeeps(q: Queue, claims: map<string, seq<string>>, claims': map<string, seq<string>>, id: string, job: Job)
    requires JobsFit(q, claims) && id in q.jobs && SameIdentity(job, q.jobs[id])
    requires claims'.Keys <= claims.Keys + {id} && forall i | i != id :: ClaimsIn(claims', i) == ClaimsIn(claims, i)
    requires AttemptFits(job, ClaimsIn(claims', id))
    ensures JobsFit(q.(jobs := q.jobs[id := job]), claims')
  {
    var q' := q.(jobs := q.jobs[id := job]);
    forall i | i in q'.jobs ensures JobFits(q', claims', i) {
      assert JobFits(q, claims, i);
    }
  }

  lemma StateChangeKeeps(q: Queue, claims: map<string, seq<string>>, id: string, job: Job)
    requires JobsFit(q, claims) && id in q.jobs && SameIdentity(job, q.jobs[id]) && job.attempt == q.jobs[id].attempt
    requires job.claimedBy == q.jobs[id].claimedBy || job.claimedBy.None?
    requires job.state != Running
    ensures JobsFit(q.(jobs := q.jobs[id := job]), claims)
    ensures q.(jobs := q.jobs[id := job]).jobs.Keys == q.jobs.Keys
  {
    assert JobFits(q, claims, id);
    RewriteKeeps(q, claims, claims, id, job);
  }

  lemma CreateKeeps(q: Queue, claims: map<string, seq<string>>, id: string, job: Job)
    requires JobsFit(q, claims) && id !in q.jobs && job.attempt == 0 && job.state == Queued && job.claimedBy.None?
    ensures JobsFit(Create(q, id, job).0, claims)
    ensures q.jobs.Keys <= Create(q, id, job).0.jobs.Keys
  {
    var q' := Create(q, id, job).0;
    forall i | i in q'.jobs ensures JobFits(q', claims, i) {
      if i != id { assert JobFits(q, claims, i); }
    }
  }

  lemma ClaimedFits(claims: seq<string>, attempt: nat, v: string, worker: string)
    requires ClaimedIn(claims, attempt, v) && v != worker
    ensures ClaimedIn(claims + [worker], attempt, v)
  {
  }

  lemma FlightKeeps(flights: map<string, Flight>, claims: map<string, seq<string>>, id: string, worker: string)
    requires FlightsFit(flights, claims) && worker !in flights
    ensures var mine := ClaimsIn(claims, id) + [worker];
            FlightsFit(flights[worker := Flight(id, |mine|)], claims[id := mine])
  {
    var mine := ClaimsIn(claims, id) + [worker];
    var flights', claims' := flights[worker := Flight(id, |mine|)], claims[id := mine];
    forall v | v in flights' ensures ClaimedIn(ClaimsIn(claims', flights'[v].job), flights'[v].attempt, v) {
      if v != worker && flights[v].job == id { ClaimedFits(ClaimsIn(claims, id), flights[v].attempt, v, worker); }
    }
  }

  lemma TakeKeeps(w: World, id: string, worker: string, now: Instant)
    requires Inv(w) && id in w.q.jobs && worker !in w.flights
    ensures Inv(Take(w, id, worker, now))
  {
    assert JobFits(w.q, w.claims, id);
    FlightKeeps(w.flights, w.claims, id, worker);
    RewriteKeeps(w.q, w.claims, w.claims[id := ClaimsIn(w.claims, id) + [worker]], id, ClaimedJob(w.q.jobs[id], worker, now));
  }

  lemma ReportKeeps(q: Queue, claims: map<string, seq<string>>, id: string, worker: string, report: Report, now: Instant)
    requires JobsFit(q, claims)
    ensures JobsFit(OrElse(Finish(q, id, worker, report, now), q), claims)
    ensures OrElse(Finish(q, id, worker, report, now), q).jobs.Keys == q.jobs.Keys
  {
    if Finish(q, id, worker, report, now).Ok? {
      StateChangeKeeps(q, claims, id, Reported(q.jobs[id], report, now));
    }
  }

  lemma FinishKeeps(w: World, worker: string, report: Report, now: Instant)
    requires Inv(w) && worker in w.flights
    ensures Inv(Apply(w, FinishStep(worker, report), now))
  {
    ReportKeeps(w.q, w.claims, w.flights[worker].job, worker, report, now);
  }

  lemma WriteKeeps(w: World, request: string, now: Instant)
    requires Inv(w)
    ensures Inv(Write(w, request, now))
  {
    if request in w.requests {
      var intent := w.requests[request];
      StateChangeKeeps(w.q, w.claims, intent.job, WithState(w.q.jobs[intent.job], Target(intent.move), now));
    }
  }

  lemma CreateStepKeeps(w: World, id: string, job: Job)
    requires Inv(w) && id !in w.q.jobs && job.attempt == 0 && job.state == Queued && job.claimedBy.None?
    ensures Inv(w.(q := Create(w.q, id, job).0))
  {
    CreateKeeps(w.q, w.claims, id, job);
  }

  lemma AskKeeps(w: World, request: string, id: string, move: Move, confirmation: string, tenantActive: bool)
    requires Inv(w)
    ensures Inv(Ask(w, request, id, move, confirmation, tenantActive))
  {
  }

  lemma EndKeeps(w: World, request: string, worker: string)
    requires Inv(w)
    ensures Inv(w.(requests := w.requests - {request})) && Inv(w.(flights := w.flights - {worker}))
  {
  }

  lemma ClaimKeeps(w: World, worker: string, now: Instant)
    requires Inv(w)
    ensures Inv(Claim(w, worker, now))
  {
    if worker !in w.flights && OldestQueued(w.q.jobs).Some? {
      TakeKeeps(w, OldestQueued(w.q.jobs).value, worker, now);
    }
  }

  lemma ApplyKeeps(w: World, st: Step, now: Instant)
    requires Inv(w)
    ensures Inv(Apply(w, st, now))
  {
    match st
    case CreateStep(id, tenant, fingerprint, key, operator) =>
      if id !in w.q.jobs { CreateStepKeeps(w, id, NewJob(tenant, fingerprint, key, operator, now)); }
    case AskStep(request, id, move, confirmation, tenantActive) => AskKeeps(w, request, id, move, confirmation, tenantActive);
    case WriteStep(request) => WriteKeeps(w, request, now);
    case DropStep(request) => EndKeeps(w, request, "");
    case ClaimStep(worker) => ClaimKeeps(w, worker, now);
    case FinishStep(worker, report) => if worker in w.flights { FinishKeeps(w, worker, report, now); }
    case CrashStep(worker) => EndKeeps(w, "", worker);
  }

  lemma {:induction false} RunKeeps(w: World, events: seq<Event>)
    requires Inv(w)
    ensures Inv(Run(w, events))
    decreases |events|
  {
    if events != [] {
      ApplyKeeps(w, events[0].step, events[0].now);
      RunKeeps(Apply(w, events[0].step, events[0].now), events[1..]);
    }
  }

  // ---------------------------------------------------------------------------
  // The results
  // ---------------------------------------------------------------------------

  // A worker in flight holds a running job exactly when its claim was the job's last.
  lemma HoldsLastClaim(job: Job, claims: seq<string>, attempt: nat, worker: string)
    requires AttemptFits(job, claims) && ClaimedIn(claims, attempt, worker)
    ensures job.state == Running && job.claimedBy == Some(worker) <==> job.state == Running && attempt == job.attempt
  {
  }

  lemma FlightFacts(w: World, worker: string)
    requires Inv(w) && worker in w.flights
    ensures var f := w.flights[worker];
            f.job in w.q.jobs && AttemptFits(w.q.jobs[f.job], ClaimsOf(w, f.job)) && ClaimedIn(ClaimsOf(w, f.job), f.attempt, worker)
  {
    var f := w.flights[worker];
    assert ClaimedIn(ClaimsOf(w, f.job), f.attempt, worker);
    assert f.job in w.claims;
    assert JobFits(w.q, w.claims, f.job);
  }

  predicate TakesEffect(w: World, worker: string, report: Report, now: Instant)
    requires worker in w.flights
  {
    Finish(w.q, w.flights[worker].job, worker, report, now).Ok?
  }

  // A report takes effect exactly when the reporting worker made the job's current attempt and
  // the job is still running; otherwise no job changes.
  lemma ReportTakesEffectExactly(events: seq<Event>, worker: string, report: Report, now: Instant)
    requires worker in Run(START, events).flights
    ensures var w := Run(START, events);
            var f := w.flights[worker];
            && f.job in w.q.jobs && w.q.jobs[f.job].attempt == |ClaimsOf(w, f.job)|
            && 1 <= f.attempt <= |ClaimsOf(w, f.job)| && ClaimsOf(w, f.job)[f.attempt - 1] == worker
            && (TakesEffect(w, worker, report, now) <==>
                  w.q.jobs[f.job].state == Running && f.attempt == w.q.jobs[f.job].attempt)
            && (!TakesEffect(w, worker, report, now) ==> Apply(w, FinishStep(worker, report), now).q == w.q)
  {
    RunKeeps(START, events);
    var w := Run(START, events);
    FlightFacts(w, worker);
    var f := w.flights[worker];
    HoldsLastClaim(w.q.jobs[f.job], ClaimsOf(w, f.job), f.attempt, worker);
  }

  // The attempt counter counts claims, and a running job belongs to the last worker that
  // claimed it.
  lemma AttemptsAreClaims(events: seq<Event>, id: string)
    requires id in Run(START, events).q.jobs
    ensures var w := Run(START, events);
            && w.q.jobs[id].attempt == |ClaimsOf(w, id)|
            && (w.q.jobs[id].claimedBy.Some? ==>
                  ClaimsOf(w, id) != [] && ClaimsOf(w, id)[|ClaimsOf(w, id)| - 1] == w.q.jobs[id].claimedBy.value)
  {
    RunKeeps(START, events);
    assert JobFits(Run(START, events).q, Run(START, events).claims, id);
  }

  // No two jobs share an operator and key, or a tenant and fingerprint.
  lemma JobsAreUnique(events: seq<Event>, a: string, b: string)
    requires var jobs := Run(START, events).q.jobs;
             a in jobs && b in jobs
             && ((jobs[a].operator == jobs[b].operator && jobs[a].key == jobs[b].key)
                 || (jobs[a].tenant == jobs[b].tenant && jobs[a].fingerprint == jobs[b].fingerprint))
    ensures a == b
  {
    RunKeeps(START, events);
    var w := Run(START, events);
    assert JobFits(w.q, w.claims, a) && JobFits(w.q, w.claims, b);
  }

  // An operator's key is honoured on the next request only if it created the job: when another
  // request's manifest answered first the key was not recorded, and the next request gets the
  // same job exactly when it carries that job's manifest or the key was recorded.
  lemma KeyIsHonouredExactly(events: seq<Event>, id: string, first: Job, id2: string, second: Job)
    requires id !in Run(START, events).q.jobs && id2 !in Run(START, events).q.jobs && id2 != id
    requires first.operator == second.operator && first.key == second.key
    ensures var q := Run(START, events).q;
            var (q1, answer) := Create(q, id, first);
            Create(q1, id2, second).1 == answer <==>
              || (first.operator, first.key) in q.operatorKeys
              || answer == id
              || ((second.tenant, second.fingerprint) in q.manifestKeys && q.manifestKeys[(second.tenant, second.fingerprint)] == answer)
  {
    RunKeeps(START, events);
  }

  // Two requests of one operator with one key can be answered with two different jobs.
  lemma KeyCanAnswerTwice() returns (events: seq<Event>, first: Job, second: Job)
    ensures first.operator == second.operator && first.key == second.key
    ensures var (q1, answer) := Create(Run(START, events).q, "b", first);
            Create(q1, "c", second).1 != answer
  {
    events := [Event(CreateStep("a", "t", "f", "k1", "o1"), 0)];
    first, second := NewJob("t", "f", "k2", "o2", 1), NewJob("t", "g", "k2", "o2", 2);
    assert Run(START, events) == Apply(START, events[0].step, 0) by {
      assert events[1..] == [];
    }
  }

  // ---------------------------------------------------------------------------
  // The edges a job moves along, and final states
  // ---------------------------------------------------------------------------

  // Which step is meant to take a job from one state to another.
  predicate MayMove(w: World, st: Step, from: JobState, to: JobState) {
    match st
    case ClaimStep(_) => from == Queued && to == Running
    case FinishStep(_, report) => from == Running && to == if report.Active? then Succeeded else Failed
    case WriteStep(request) =>
      request in w.requests && from in MeantFor(w.requests[request].move) && to == Target(w.requests[request].move)
    case _ => false
  }

  ghost predicate MovesAlongEdges(w: World, st: Step, now: Instant) {
    forall id | id in w.q.jobs ::
      && id in Apply(w, st, now).q.jobs && SameIdentity(Apply(w, st, now).q.jobs[id], w.q.jobs[id])
      && (Apply(w, st, now).q.jobs[id] != w.q.jobs[id] ==>
            MayMove(w, st, w.q.jobs[id].state, Apply(w, st, now).q.jobs[id].state))
  }

  predicate ChangesJob(w: World, st: Step, now: Instant) {
    && st.WriteStep? && st.request in w.requests && w.requests[st.request].job in w.q.jobs
    && var job := w.q.jobs[w.requests[st.request].job];
       WithState(job, Target(w.requests[st.request].move), now) != job
  }

  // A request writes although the job is no longer in a state the request is meant for.
  predicate LateWrite(w: World, st: Step, now: Instant) {
    && ChangesJob(w, st, now)
    && w.q.jobs[w.requests[st.request].job].state !in MeantFor(w.requests[st.request].move)
  }

  predicate IsFinal(state: JobState) {
    state == Succeeded || state == CleanupRequested
  }

  ghost predicate KeepsFinal(w: World, st: Step, now: Instant) {
    forall id | id in w.q.jobs && IsFinal(w.q.jobs[id].state) ::
      id in Apply(w, st, now).q.jobs && Apply(w, st, now).q.jobs[id] == w.q.jobs[id]
  }

  // A second cleanup request in the very instant of the first writes what is there.
  predicate Repeats(job: Job, move: Move, now: Instant) {
    move == ToCleanup && job.state == CleanupRequested && job.updatedAt == now && job.cleanupRequestedAt == Some(now)
  }

  // The job became final between the request's check and its write.
  predicate FinalWrite(w: World, st: Step, now: Instant) {
    && st.WriteStep? && st.request in w.requests && w.requests[st.request].job in w.q.jobs
    && var intent := w.requests[st.request];
       !IsFinal(intent.seen) && IsFinal(w.q.jobs[intent.job].state) && !Repeats(w.q.jobs[intent.job], intent.move, now)
  }

  lemma ClaimMoves(w: World, worker: string, now: Instant, id: string)
    requires id in w.q.jobs
    ensures var w' := Claim(w, worker, now);
            id in w'.q.jobs && (w'.q.jobs[id] == w.q.jobs[id]
              || (w.q.jobs[id].state == Queued && w'.q.jobs[id] == ClaimedJob(w.q.jobs[id], worker, now)))
  {
  }

  // What a step can do to a job: only a write of a request is not bound by the job's state.
  lemma StepMoves(w: World, st: Step, now: Instant, id: string)
    requires id in w.q.jobs
    ensures var w' := Apply(w, st, now);
            && id in w'.q.jobs && SameIdentity(w'.q.jobs[id], w.q.jobs[id])
            && (w'.q.jobs[id] != w.q.jobs[id] && !st.WriteStep? ==> MayMove(w, st, w.q.jobs[id].state, w'.q.jobs[id].state))
            && (w'.q.jobs[id] != w.q.jobs[id] && st.WriteStep? ==>
                  ChangesJob(w, st, now) && id == w.requests[st.request].job
                  && w'.q.jobs[id].state == Target(w.requests[st.request].move))
  {
    match st
    case ClaimStep(worker) => ClaimMoves(w, worker, now, id);
    case _ =>
  }

  lemma EdgesStep(w: World, st: Step, now: Instant)
    ensures MovesAlongEdges(w, st, now) <==> !LateWrite(w, st, now)
  {
    forall id | id in w.q.jobs && !LateWrite(w, st, now)
      ensures id in Apply(w, st, now).q.jobs && SameIdentity(Apply(w, st, now).q.jobs[id], w.q.jobs[id])
      ensures Apply(w, st, now).q.jobs[id] != w.q.jobs[id] ==> MayMove(w, st, w.q.jobs[id].state, Apply(w, st, now).q.jobs[id].state)
    {
      StepMoves(w, st, now, id);
    }
    if LateWrite(w, st, now) {
      var id := w.requests[st.request].job;
      assert Apply(w, st, now).q.jobs[id] != w.q.jobs[id];
      assert !MayMove(w, st, w.q.jobs[id].state, Apply(w, st, now).q.jobs[id].state);
    }
  }

  lemma FinalWriteChanges(w: World, st: Step, now: Instant)
    requires FinalWrite(w, st, now)
    ensures !KeepsFinal(w, st, now)
  {
    var intent := w.requests[st.request];
    var job := w.q.jobs[intent.job];
    assert WithState(job, Target(intent.move), now) != job;
    assert Apply(w, st, now).q.jobs[intent.job] == WithState(job, Target(intent.move), now);
  }

  lemma FinalStep(w: World, st: Step, now: Instant)
    requires Inv(w)
    ensures KeepsFinal(w, st, now) <==> !FinalWrite(w, st, now)
  {
    if FinalWrite(w, st, now) {
      FinalWriteChanges(w, st, now);
    } else {
      forall id | id in w.q.jobs && IsFinal(w.q.jobs[id].state)
        ensures id in Apply(w, st, now).q.jobs && Apply(w, st, now).q.jobs[id] == w.q.jobs[id]
      {
        StepMoves(w, st, now, id);
      }
    }
  }

  // The same, at every step of a run.
  ghost predicate AlwaysAlongEdges(w: World, events: seq<Event>)
    decreases |events|
  {
    events == [] || (MovesAlongEdges(w, events[0].step, events[0].now)
                     && AlwaysAlongEdges(Apply(w, events[0].step, events[0].now), events[1..]))
  }

  ghost predicate NoLateWrite(w: World, events: seq<Event>)
    decreases |events|
  {
    events == [] || (!LateWrite(w, events[0].step, events[0].now)
                     && NoLateWrite(Apply(w, events[0].step, events[0].now), events[1..]))
  }

  ghost predicate AlwaysKeepsFinal(w: World, events: seq<Event>)
    decreases |events|
  {
    events == [] || (KeepsFinal(w, events[0].step, events[0].now)
                     && AlwaysKeepsFinal(Apply(w, events[0].step, events[0].now), events[1..]))
  }

  ghost predicate NoFinalWrite(w: World, events: seq<Event>)
    decreases |events|
  {
    events == [] || (!FinalWrite(w, events[0].step, events[0].now)
                     && NoFinalWrite(Apply(w, events[0].step, events[0].now), events[1..]))
  }

  // Jobs move along the intended edges at every step of a run exactly when no request writes
  // after its job has left the states the request is meant for.
  lemma {:induction false} JobsMoveAlongEdgesExactly(w: World, events: seq<Event>)
    ensures AlwaysAlongEdges(w, events) <==> NoLateWrite(w, events)
    decreases |events|
  {
    if events != [] {
      EdgesStep(w, events[0].step, events[0].now);
      JobsMoveAlongEdgesExactly(Apply(w, events[0].step, events[0].now), events[1..]);
    }
  }

  // Succeeded and cleanup_requested are absorbing along a run exactly when no job becomes final
  // between the check and the write of a request - but for a cleanup repeated in the same instant.
  lemma {:induction false} FinalIsAbsorbingExactly(w: World, events: seq<Event>)
    requires Inv(w)
    ensures AlwaysKeepsFinal(w, events) <==> NoFinalWrite(w, events)
    decreases |events|
  {
    if events != [] {
      FinalStep(w, events[0].step, events[0].now);
      ApplyKeeps(w, events[0].step, events[0].now);
      FinalIsAbsorbingExactly(Apply(w, events[0].step, events[0].now), events[1..]);
    }
  }

  // In such a run a final job is the same at the end as at the beginning.
  lemma {:induction false} FinalToTheEnd(w: World, events: seq<Event>, id: string)
    requires Inv(w) && NoFinalWrite(w, events) && id in w.q.jobs && IsFinal(w.q.jobs[id].state)
    ensures id in Run(w, events).q.jobs && Run(w, events).q.jobs[id] == w.q.jobs[id]
    decreases |events|
  {
    if events != [] {
      FinalStep(w, events[0].step, events[0].now);
      ApplyKeeps(w, events[0].step, events[0].now);
      FinalToTheEnd(Apply(w, events[0].step, events[0].now), events[1..], id);
    }
  }

  // A write that breaks an edge or a final state comes after its job left the state it read.
  lemma LateWritesAreStale(events: seq<Event>, st: Step, now: Instant)
    ensures var w := Run(START, events);
            FinalWrite(w, st, now) ==> LateWrite(w, st, now)
    ensures var w := Run(START, events);
            LateWrite(w, st, now) ==> w.q.jobs[w.requests[st.request].job].state != w.requests[st.request].seen
  {
    RunKeeps(START, events);
  }

  // ---------------------------------------------------------------------------
  // Late writes do happen
  // ---------------------------------------------------------------------------

  lemma {:induction false} RunSnoc(w: World, events: seq<Event>, e: Event)
    ensures Run(w, events + [e]) == Apply(Run(w, events), e.step, e.now)
    decreases |events|
  {
    if events == [] {
      assert events + [e] == [e] && [e][1..] == [];
    } else {
      assert (events + [e])[0] == events[0] && (events + [e])[1..] == events[1..] + [e];
      RunSnoc(Apply(w, events[0].step, events[0].now), events[1..], e);
    }
  }

  const LATE_RUN: seq<Event> := [
    Event(CreateStep("j", "t", "f", "k", "o"), 0),
    Event(ClaimStep("worker"), 1),
    Event(AskStep("cancel", "j", ToCancel, "", false), 2),
    Event(FinishStep("worker", Active([])), 3),
    Event(WriteStep("cancel"), 4),
    Event(AskStep("retry", "j", ToRetry, "", false), 5),
    Event(WriteStep("retry"), 6)]

  lemma LateStep(k: nat)
    requires k < |LATE_RUN|
    ensures Run(START, LATE_RUN[..k + 1]) == Apply(Run(START, LATE_RUN[..k]), LATE_RUN[k].step, LATE_RUN[k].now)
  {
    assert LATE_RUN[..k + 1] == LATE_RUN[..k] + [LATE_RUN[k]];
    RunSnoc(START, LATE_RUN[..k], LATE_RUN[k]);
  }

  const LATE_JOB := ClaimedJob(NewJob("t", "f", "k", "o", 0), "worker", 1)

  lemma LateClaim()
    ensures var w := Run(START, LATE_RUN[..2]);
            w.q.jobs == map["j" := LATE_JOB] && w.flights == map["worker" := Flight("j", 1)] && w.requests == map[]
  {
    LateStep(0);
    LateStep(1);
    assert LATE_RUN[..0] == [];
    var w1 := Run(START, LATE_RUN[..1]);
    assert w1.q.jobs == map["j" := NewJob("t", "f", "k", "o", 0)];
    assert IsOldestQueued(w1.q.jobs, "j");
    OldestIsUnique(w1.q.jobs, "j", OldestQueued(w1.q.jobs).value);
  }

  lemma LateSuccess(w: World)
    requires w.q.jobs == map["j" := LATE_JOB] && w.flights == map["worker" := Flight("j", 1)] && w.requests == map[]
    ensures var w4 := Apply(Apply(w, LATE_RUN[2].step, 2), LATE_RUN[3].step, 3);
            "j" in w4.q.jobs && w4.q.jobs["j"].state == Succeeded && w4.requests == map["cancel" := Intent("j", ToCancel, Running)]
  {
    var w3 := Apply(w, LATE_RUN[2].step, 2);
    assert w3.q == w.q && w3.flights == w.flights && w3.requests == map["cancel" := Intent("j", ToCancel, Running)];
    assert HeldBy(w3.q, "j", "worker");
  }

  lemma LateCancel(w: World)
    requires "j" in w.q.jobs && w.requests == map["cancel" := Intent("j", ToCancel, Running)]
    ensures var w5 := Apply(w, LATE_RUN[4].step, 4);
            "j" in w5.q.jobs && w5.q.jobs["j"].state == CancelRequested && w5.requests == map[]
  {
  }

  lemma LateRetry(w: World)
    requires "j" in w.q.jobs && w.q.jobs["j"].state == CancelRequested && w.requests == map[]
    ensures var w7 := Apply(Apply(w, LATE_RUN[5].step, 5), LATE_RUN[6].step, 6);
            "j" in w7.q.jobs && w7.q.jobs["j"].state == Queued
  {
    var w6 := Apply(w, LATE_RUN[5].step, 5);
    assert w6.q == w.q && w6.requests == map["retry" := Intent("j", ToRetry, CancelRequested)];
  }

  predicate StateOf(w: World, state: JobState) {
    "j" in w.q.jobs && w.q.jobs["j"].state == state
  }

  lemma AfterReport()
    ensures StateOf(Run(START, LATE_RUN[..4]), Succeeded)
    ensures Run(START, LATE_RUN[..4]).requests == map["cancel" := Intent("j", ToCancel, Running)]
  {
    LateClaim();
    LateSuccess(Run(START, LATE_RUN[..2]));
    LateStep(2);
    LateStep(3);
  }

  lemma AfterCancel()
    ensures StateOf(Run(START, LATE_RUN[..5]), CancelRequested) && Run(START, LATE_RUN[..5]).requests == map[]
  {
    AfterReport();
    LateCancel(Run(START, LATE_RUN[..4]));
    LateStep(4);
  }

  lemma AfterRetry()
    ensures StateOf(Run(START, LATE_RUN[..7]), Queued)
  {
    AfterCancel();
    LateRetry(Run(START, LATE_RUN[..5]));
    LateStep(5);
    LateStep(6);
  }

  // A cancellation that read the job as running overwrites the success reported since, and a
  // retry then queues the provisioned tenant's job again.
  lemma SucceededIsOverwritten()
    ensures StateOf(Run(START, LATE_RUN[..4]), Succeeded)
    ensures StateOf(Run(START, LATE_RUN[..5]), CancelRequested)
    ensures StateOf(Run(START, LATE_RUN), Queued)
  {
    AfterReport();
    AfterCancel();
    AfterRetry();
    assert LATE_RUN[..7] == LATE_RUN;
  }

  // Wherever a job has failed, a retry held up between its check and its write undoes a cleanup
  // request accepted meanwhile.
  lemma CleanupIsOverwritten(w: World, id: string, now: Instant)
    requires id in w.q.jobs && w.q.jobs[id].state == Failed && "retry" !in w.requests && "cleanup" !in w.requests
    ensures var w1 := Ask(w, "retry", id, ToRetry, "", false);
            var w2 := Ask(w1, "cleanup", id, ToCleanup, "cleanup " + w.q.jobs[id].tenant, false);
            var w3 := Write(w2, "cleanup", now);
            w3.q.jobs[id].state == CleanupRequested && Write(w3, "retry", now).q.jobs[id].state == Queued
  {
    var job := w.q.jobs[id];
    var w1 := Ask(w, "retry", id, ToRetry, "", false);
    assert w1 == w.(requests := w.requests["retry" := Intent(id, ToRetry, Failed)]);
    var w2 := Ask(w1, "cleanup", id, ToCleanup, "cleanup " + job.tenant, false);
    assert w2 == w1.(requests := w1.requests["cleanup" := Intent(id, ToCleanup, Failed)]);
    var w3 := Write(w2, "cleanup", now);
    assert w3.q.jobs[id] == WithState(job, CleanupRequested, now) && w3.requests["retry"] == Intent(id, ToRetry, Failed);
  }
}
