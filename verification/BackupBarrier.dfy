// The backup consistency barrier: a control row, the tenant's active flag and a session-scoped
// advisory lock, driven by operators, recoverers and mutators whose atomic steps interleave.
module BackupBarrier {
  import opened Common

  type Tenant = string
  type Process = nat
  type Mutator = nat
  type BarrierId = nat

  // How far a process got in enter, exit or recover.
  datatype Phase =
    | Idle
    | Fenced(tenant: Tenant, barrier: BarrierId)      // enter: tenant suspended
    | Connected(tenant: Tenant, barrier: BarrierId)   // enter: waiting for the exclusive lock
    | BackingOut(tenant: Tenant, barrier: BarrierId)  // enter: failed, resume pending
    | Holding(tenant: Tenant, barrier: BarrierId)     // enter returned
    | Releasing(tenant: Tenant, barrier: BarrierId)   // exit: lock and connection gone, resume pending
    | Stuck(stale: BarrierId)                         // exit failed to unlock; only the id is left
    | Probing(tenant: Tenant, barrier: BarrierId)     // recover: route found
    | Probed(tenant: Tenant, barrier: BarrierId)      // recover: exclusive lock taken
    | Recovering(tenant: Tenant, barrier: BarrierId)  // recover: lock returned, resume pending

  datatype World = World(
    active: set<Tenant>,
    healthy: set<Tenant>,
    rows: map<Tenant, BarrierId>,
    drawn: map<BarrierId, Process>,     // history: who drew each barrier id
    phases: map<Process, Phase>,
    exclusive: map<Tenant, Process>,
    shared: map<Mutator, Tenant>,
    store: map<Tenant, int>)

  function PhaseOf(w: World, p: Process): Phase {
    if p in w.phases then w.phases[p] else Idle
  }

  function Enter(w: World, p: Process, phase: Phase): World {
    w.(phases := w.phases[p := phase])
  }

  predicate LockFree(w: World, t: Tenant) {
    t !in w.exclusive && forall m | m in w.shared :: w.shared[m] != t
  }

  // The locks of a session end with it.
  function DropLocks(w: World, p: Process): World {
    w.(exclusive := map t | t in w.exclusive && w.exclusive[t] != p :: w.exclusive[t])
  }

  // One control transaction: remove the exact row and reactivate, or roll back.
  function Resume(w: World, t: Tenant, b: BarrierId): World {
    if t in w.rows && w.rows[t] == b && t !in w.active
    then w.(rows := w.rows - {t}, active := w.active + {t})
    else w
  }

  // The barrier id an operator process is working under.
  function OwnBarrier(phase: Phase): Option<BarrierId> {
    match phase
    case Fenced(_, b) => Some(b)
    case Connected(_, b) => Some(b)
    case BackingOut(_, b) => Some(b)
    case Holding(_, b) => Some(b)
    case Releasing(_, b) => Some(b)
    case Stuck(b) => Some(b)
    case _ => None
  }

  predicate MayHold(phase: Phase) {
    phase.Holding? || phase.Probed?
  }

  ghost predicate HasLock(w: World, p: Process) {
    MayHold(PhaseOf(w, p)) && PhaseOf(w, p).tenant in w.exclusive && w.exclusive[PhaseOf(w, p).tenant] == p
  }

  // All that a step of process p does to locks: nothing, end its session's locks, or take one.
  ghost predicate LockEffect(w: World, w': World, p: Process) {
    && w'.shared == w.shared && w'.store == w.store
    && (w'.phases == w.phases || w'.phases == w.phases[p := PhaseOf(w', p)])
    && (|| (w'.exclusive == w.exclusive && (HasLock(w, p) ==> PhaseOf(w', p) == PhaseOf(w, p)))
        || w'.exclusive == DropLocks(w, p).exclusive
        || (&& MayHold(PhaseOf(w', p)) && !MayHold(PhaseOf(w, p)) && LockFree(w, PhaseOf(w', p).tenant)
            && w'.exclusive == w.exclusive[PhaseOf(w', p).tenant := p]))
    && (PhaseOf(w', p).Probed? ==> HasLock(w', p) || (PhaseOf(w', p) == PhaseOf(w, p) && w'.exclusive == w.exclusive))
    && (PhaseOf(w', p).Recovering? && PhaseOf(w', p) != PhaseOf(w, p) ==>
          PhaseOf(w, p) == Probed(PhaseOf(w', p).tenant, PhaseOf(w', p).barrier))
  }

  // Apart from suspending, a step of process p keeps or forgets its barrier, and it drops a row
  // only in a last transaction under that row's tenant and barrier.
  ghost predicate BarrierEffect(w: World, w': World, p: Process) {
    && w'.drawn == w.drawn
    && (w'.phases == w.phases || w'.phases == w.phases[p := PhaseOf(w', p)])
    && w'.rows.Keys <= w.rows.Keys && (forall t | t in w'.rows :: w'.rows[t] == w.rows[t])
    && (forall t | t in w.rows && t !in w'.rows :: FinishesRow(PhaseOf(w, p), t, w.rows[t]))
    && (OwnBarrier(PhaseOf(w', p)) == None || OwnBarrier(PhaseOf(w', p)) == OwnBarrier(PhaseOf(w, p)))
  }

  predicate FinishesRow(phase: Phase, t: Tenant, b: BarrierId) {
    phase == BackingOut(t, b) || phase == Releasing(t, b) || phase == Recovering(t, b)
  }

  // The steps. One that is not enabled leaves the world alone, as a rejected call does.

  function SuspendTenant(w: World, p: Process, t: Tenant, b: BarrierId): (w': World)
    ensures LockEffect(w, w', p)
  {
    if PhaseOf(w, p).Idle? && b !in w.drawn && t in w.active && t in w.healthy && t !in w.rows
    then Enter(w.(rows := w.rows[t := b], active := w.active - {t}, drawn := w.drawn[b := p]), p, Fenced(t, b))
    else w
  }

  function OpenConnection(w: World, p: Process, ok: bool): (w': World)
    ensures LockEffect(w, w', p) && BarrierEffect(w, w', p)
  {
    match PhaseOf(w, p)
    case Fenced(t, b) => Enter(w, p, if ok then Connected(t, b) else BackingOut(t, b))
    case _ => w
  }

  function TakeLock(w: World, p: Process, ok: bool): (w': World)
    ensures LockEffect(w, w', p) && BarrierEffect(w, w', p)
  {
    match PhaseOf(w, p)
    case Connected(t, b) =>
      if !ok then Enter(w, p, BackingOut(t, b))
      else if LockFree(w, t) then Enter(w.(exclusive := w.exclusive[t := p]), p, Holding(t, b))
      else w
    case _ => w
  }

  function Release(w: World, p: Process): (w': World)
    ensures LockEffect(w, w', p) && BarrierEffect(w, w', p)
  {
    match PhaseOf(w, p)
    case Holding(t, b) =>
      if t in w.exclusive && w.exclusive[t] == p then Enter(DropLocks(w, p), p, Releasing(t, b))
      else Enter(w, p, Stuck(b))
    case _ => w
  }

  // The last transaction of a failed enter, of exit and of recover.
  function Finish(w: World, p: Process): (w': World)
    ensures LockEffect(w, w', p) && BarrierEffect(w, w', p)
  {
    match PhaseOf(w, p)
    case BackingOut(t, b) => Enter(Resume(w, t, b), p, Idle)
    case Releasing(t, b) => Enter(Resume(w, t, b), p, Idle)
    case Recovering(t, b) => Enter(Resume(w, t, b), p, Idle)
    case _ => w
  }

  function LoseConnection(w: World, p: Process): (w': World)
    ensures LockEffect(w, w', p) && BarrierEffect(w, w', p)
  {
    if PhaseOf(w, p).Holding? then DropLocks(w, p) else w
  }

  function FindRoute(w: World, p: Process, t: Tenant, b: BarrierId): (w': World)
    ensures LockEffect(w, w', p) && BarrierEffect(w, w', p)
  {
    if PhaseOf(w, p).Idle? && t in w.rows && w.rows[t] == b && t !in w.active && t in w.healthy
    then Enter(w, p, Probing(t, b)) else w
  }

  function TryLock(w: World, p: Process): (w': World)
    ensures LockEffect(w, w', p) && BarrierEffect(w, w', p)
  {
    match PhaseOf(w, p)
    case Probing(t, b) =>
      if LockFree(w, t) then Enter(w.(exclusive := w.exclusive[t := p]), p, Probed(t, b)) else Enter(w, p, Idle)
    case _ => w
  }

  function Unlock(w: World, p: Process, ok: bool): (w': World)
    ensures LockEffect(w, w', p) && BarrierEffect(w, w', p)
  {
    match PhaseOf(w, p)
    case Probed(t, b) => Enter(DropLocks(w, p), p, if ok then Recovering(t, b) else Idle)
    case _ => w
  }

  function Crash(w: World, p: Process): (w': World)
    ensures LockEffect(w, w', p) && BarrierEffect(w, w', p)
  {
    Enter(DropLocks(w, p), p, Idle)
  }

  datatype Step =
    | SuspendStep(p: Process, t: Tenant, b: BarrierId)
    | ConnectStep(p: Process, ok: bool)
    | TakeLockStep(p: Process, ok: bool)
    | ReleaseStep(p: Process)
    | FinishStep(p: Process)
    | LoseConnectionStep(p: Process)
    | FindRouteStep(p: Process, t: Tenant, b: BarrierId)
    | TryLockStep(p: Process)
    | UnlockStep(p: Process, ok: bool)
    | CrashStep(p: Process)
    | BeginStep(m: Mutator, t: Tenant)
    | CommitStep(m: Mutator, value: int)
    | AbortStep(m: Mutator)
    | HealthStep(t: Tenant, ok: bool)

  function After(w: World, step: Step): World {
    match step
    case SuspendStep(p, t, b) => SuspendTenant(w, p, t, b)
    case ConnectStep(p, ok) => OpenConnection(w, p, ok)
    case TakeLockStep(p, ok) => TakeLock(w, p, ok)
    case ReleaseStep(p) => Release(w, p)
    case FinishStep(p) => Finish(w, p)
    case LoseConnectionStep(p) => LoseConnection(w, p)
    case FindRouteStep(p, t, b) => FindRoute(w, p, t, b)
    case TryLockStep(p) => TryLock(w, p)
    case UnlockStep(p, ok) => Unlock(w, p, ok)
    case CrashStep(p) => Crash(w, p)
    case BeginStep(m, t) =>
      if m !in w.shared && t !in w.exclusive then w.(shared := w.shared[m := t]) else w
    case CommitStep(m, value) =>
      if m in w.shared then w.(store := w.store[w.shared[m] := value], shared := w.shared - {m}) else w
    case AbortStep(m) => w.(shared := w.shared - {m})
    case HealthStep(t, ok) => w.(healthy := if ok then w.healthy + {t} else w.healthy - {t})
  }

  function Run(w: World, steps: seq<Step>): World
    decreases steps
  {
    if steps == [] then w else Run(After(w, steps[0]), steps[1..])
  }

  ghost predicate Initial(w: World) {
    w.rows == map[] && w.drawn == map[] && w.phases == map[] && w.exclusive == map[] && w.shared == map[]
  }

  // ---------------------------------------------------------------------------
  // The invariant
  // ---------------------------------------------------------------------------

  // A row exists exactly while its tenant is suspended.
  ghost predicate RowsMatchSuspension(w: World, managed: set<Tenant>) {
    w.rows.Keys !! w.active && w.rows.Keys + w.active == managed
  }

  ghost predicate LocksExclude(w: World) {
    && (forall t | t in w.exclusive ::
          var phase := PhaseOf(w, w.exclusive[t]); (phase.Holding? || phase.Probed?) && phase.tenant == t)
    && (forall m | m in w.shared :: w.shared[m] !in w.exclusive)
  }

  ghost predicate ProbesLocked(w: World) {
    forall p | p in w.phases && w.phases[p].Probed? :: HasLock(w, p)
  }

  ghost predicate BarriersOwned(w: World) {
    && (forall t | t in w.rows :: w.rows[t] in w.drawn)
    && (forall t, u | t in w.rows && u in w.rows && w.rows[t] == w.rows[u] :: t == u)
    && (forall p | p in w.phases && OwnBarrier(w.phases[p]).Some? ::
          OwnBarrier(w.phases[p]).value in w.drawn && w.drawn[OwnBarrier(w.phases[p]).value] == p)
  }

  ghost predicate Inv(w: World, managed: set<Tenant>) {
    RowsMatchSuspension(w, managed) && LocksExclude(w) && ProbesLocked(w) && BarriersOwned(w)
  }

  lemma RowsStep(w: World, step: Step, managed: set<Tenant>)
    requires RowsMatchSuspension(w, managed)
    ensures RowsMatchSuspension(After(w, step), managed)
  {
  }

  function Actor(step: Step): Option<Process> {
    if step.BeginStep? || step.CommitStep? || step.AbortStep? || step.HealthStep? then None else Some(step.p)
  }

  lemma LocksStep(w: World, step: Step)
    requires LocksExclude(w)
    ensures LocksExclude(After(w, step))
  {
    if Actor(step).Some? {
      LocksFollow(w, After(w, step), Actor(step).value);
    }
  }

  lemma LocksFollow(w: World, w': World, p: Process)
    requires LocksExclude(w) && LockEffect(w, w', p)
    ensures LocksExclude(w')
  {
    assert forall t | t in w.exclusive && w.exclusive[t] == p :: HasLock(w, p) && PhaseOf(w, p).tenant == t;
  }

  lemma ProbesStep(w: World, step: Step)
    requires LocksExclude(w) && ProbesLocked(w)
    ensures ProbesLocked(After(w, step))
  {
    if Actor(step).Some? {
      ProbesFollow(w, After(w, step), Actor(step).value);
    }
  }

  lemma ProbesFollow(w: World, w': World, p: Process)
    requires LocksExclude(w) && ProbesLocked(w) && LockEffect(w, w', p)
    ensures ProbesLocked(w')
  {
    forall q | q in w'.phases && w'.phases[q].Probed? ensures HasLock(w', q) {
      if q != p {
        assert HasLock(w, q);
      } else if q in w.phases && w.phases[q].Probed? {
        assert HasLock(w, q);
      }
    }
  }

  lemma BarriersStep(w: World, step: Step)
    requires BarriersOwned(w)
    ensures BarriersOwned(After(w, step))
  {
    if Actor(step).Some? && !step.SuspendStep? {
      BarriersFollow(w, After(w, step), Actor(step).value);
    } else if step.SuspendStep? {
      BarriersDraw(w, step.p, step.t, step.b);
    }
  }

  lemma BarriersFollow(w: World, w': World, p: Process)
    requires BarriersOwned(w) && BarrierEffect(w, w', p)
    ensures BarriersOwned(w')
  {
  }

  lemma BarriersDraw(w: World, p: Process, t: Tenant, b: BarrierId)
    requires BarriersOwned(w)
    ensures BarriersOwned(After(w, SuspendStep(p, t, b)))
  {
  }

  // Every interleaving of every number of processes, with crashes anywhere, keeps the invariant.
  lemma {:induction false} RunKeepsInvariant(w: World, steps: seq<Step>, managed: set<Tenant>)
    requires Inv(w, managed)
    ensures Inv(Run(w, steps), managed)
    decreases steps
  {
    if steps != [] {
      RowsStep(w, steps[0], managed);
      LocksStep(w, steps[0]);
      ProbesStep(w, steps[0]);
      BarriersStep(w, steps[0]);
      RunKeepsInvariant(After(w, steps[0]), steps[1..], managed);
    }
  }

  lemma ReachableInvariant(w: World, steps: seq<Step>)
    requires Initial(w)
    ensures Inv(Run(w, steps), w.active)
  {
    RunKeepsInvariant(w, steps, w.active);
  }

  // ---------------------------------------------------------------------------
  // Capture safety
  // ---------------------------------------------------------------------------

  function Contents(w: World, t: Tenant): Option<int> {
    if t in w.store then Some(w.store[t]) else None
  }

  ghost predicate Captures(w: World, p: Process, t: Tenant, b: BarrierId) {
    PhaseOf(w, p) == Holding(t, b) && HasLock(w, p)
  }

  // The steps by which p itself gives up the lock: exit, a lost session, a crash.
  predicate Ends(step: Step, p: Process) {
    step == ReleaseStep(p) || step == LoseConnectionStep(p) || step == CrashStep(p)
  }

  lemma CaptureStep(w: World, step: Step, p: Process, t: Tenant, b: BarrierId)
    requires LocksExclude(w) && Captures(w, p, t, b) && !Ends(step, p)
    ensures Captures(After(w, step), p, t, b)
    ensures Contents(After(w, step), t) == Contents(w, t)
  {
    if Actor(step).Some? {
      var q := Actor(step).value;
      assert LockEffect(w, After(w, step), q);
    }
  }

  // From enter until the holder gives up the lock, no interleaving of other processes and
  // mutators changes the tenant's data: a quiescence check that passed keeps passing.
  lemma {:induction false} CaptureIsStable(w: World, steps: seq<Step>, p: Process, t: Tenant, b: BarrierId,
          managed: set<Tenant>)
    requires Inv(w, managed) && Captures(w, p, t, b)
    requires forall step | step in steps :: !Ends(step, p)
    ensures Captures(Run(w, steps), p, t, b)
    ensures Contents(Run(w, steps), t) == Contents(w, t)
    decreases steps
  {
    if steps != [] {
      CaptureStep(w, steps[0], p, t, b);
      RunKeepsInvariant(w, steps[..1], managed);
      assert Run(w, steps[..1]) == After(w, steps[0]) by { assert Run(After(w, steps[0]), steps[..1][1..]) == After(w, steps[0]); }
      CaptureIsStable(After(w, steps[0]), steps[1..], p, t, b, managed);
    }
  }

  // No recoverer of this very barrier has already passed its lock probe.
  ghost predicate NoRecoveryInFlight(w: World, t: Tenant, b: BarrierId) {
    forall q | q in w.phases :: w.phases[q] != Recovering(t, b)
  }

  // Suspending a tenant draws a new barrier and starts no recovery.
  lemma SuspensionSuspends(w: World, q: Process, u: Tenant, c: BarrierId, t: Tenant, b: BarrierId)
    requires t in w.rows && w.rows[t] == b && NoRecoveryInFlight(w, t, b)
    ensures var w' := SuspendTenant(w, q, u, c); t in w'.rows && w'.rows[t] == b && NoRecoveryInFlight(w', t, b)
  {
  }

  lemma ActorHasEffect(w: World, step: Step)
    requires Actor(step).Some? && !step.SuspendStep?
    ensures LockEffect(w, After(w, step), Actor(step).value) && BarrierEffect(w, After(w, step), Actor(step).value)
  {
  }

  lemma OthersKeepRows(w: World, step: Step)
    requires Actor(step).None?
    ensures After(w, step).rows == w.rows && After(w, step).phases == w.phases
  {
  }

  lemma SuspensionStep(w: World, step: Step, p: Process, t: Tenant, b: BarrierId, managed: set<Tenant>)
    requires Inv(w, managed) && Captures(w, p, t, b) && !Ends(step, p)
    requires t in w.rows && w.rows[t] == b && NoRecoveryInFlight(w, t, b)
    ensures t in After(w, step).rows && After(w, step).rows[t] == b && NoRecoveryInFlight(After(w, step), t, b)
  {
    if step.SuspendStep? {
      SuspensionSuspends(w, step.p, step.t, step.b, t, b);
    } else if Actor(step).Some? {
      ActorHasEffect(w, step);
      SuspensionFollows(w, After(w, step), Actor(step).value, p, t, b);
    } else {
      OthersKeepRows(w, step);
    }
  }

  lemma SuspensionFollows(w: World, w': World, q: Process, p: Process, t: Tenant, b: BarrierId)
    requires LocksExclude(w) && ProbesLocked(w) && BarriersOwned(w)
    requires Captures(w, p, t, b) && t in w.rows && w.rows[t] == b && NoRecoveryInFlight(w, t, b)
    requires LockEffect(w, w', q) && BarrierEffect(w, w', q)
    ensures t in w'.rows && w'.rows[t] == b && NoRecoveryInFlight(w', t, b)
  {
    assert p in w.phases && OwnBarrier(w.phases[p]) == Some(b);
    if q in w.phases {
      assert OwnBarrier(w.phases[q]) == Some(b) ==> w.drawn[b] == q == p;
      assert w.phases[q] == Probed(t, b) ==> HasLock(w, q);
    }
  }

  // Suspension lasts through a capture exactly when no recovery of its barrier was in flight:
  // without one, nothing reactivates the tenant ...
  lemma {:induction false} SuspensionLasts(w: World, steps: seq<Step>, p: Process, t: Tenant, b: BarrierId,
          managed: set<Tenant>)
    requires Inv(w, managed) && Captures(w, p, t, b)
    requires t in w.rows && w.rows[t] == b && NoRecoveryInFlight(w, t, b)
    requires forall step | step in steps :: !Ends(step, p)
    ensures var w' := Run(w, steps); t in w'.rows && w'.rows[t] == b && t !in w'.active
    decreases steps
  {
    if steps != [] {
      SuspensionStep(w, steps[0], p, t, b, managed);
      CaptureStep(w, steps[0], p, t, b);
      RowsStep(w, steps[0], managed);
      LocksStep(w, steps[0]);
      ProbesStep(w, steps[0]);
      BarriersStep(w, steps[0]);
      SuspensionLasts(After(w, steps[0]), steps[1..], p, t, b, managed);
    }
  }

  // ... and with one, its last transaction does, while the capture goes on.
  lemma RecoveryInFlightReactivates(w: World, q: Process, p: Process, t: Tenant, b: BarrierId, managed: set<Tenant>)
    requires Inv(w, managed) && Captures(w, p, t, b) && t in w.rows && w.rows[t] == b
    requires q in w.phases && w.phases[q] == Recovering(t, b)
    ensures var w' := After(w, FinishStep(q)); t in w'.active && Captures(w', p, t, b)
  {
    CaptureStep(w, FinishStep(q), p, t, b);
  }

  // Such a recovery can start while an operator still waits for its lock.
  lemma TenantActiveDuringCapture()
    ensures exists w, steps, p, t, b :: Initial(w) && Captures(Run(w, steps), p, t, b) && t in Run(w, steps).active
  {
    var w, before, after := LateRun();
    assert Captures(Run(w, before + after), 1, "a", 7);
  }

  lemma LateRun() returns (w: World, before: seq<Step>, after: seq<Step>)
    ensures Initial(w) && Captures(Run(w, before + after), 1, "a", 7) && "a" in Run(w, before + after).active
  {
    w := World({"a"}, {"a"}, map[], map[], map[], map[], map[], map[]);
    before := [SuspendStep(1, "a", 7), FindRouteStep(2, "a", 7), TryLockStep(2), UnlockStep(2, true)];
    after := [ConnectStep(1, true), TakeLockStep(1, true), FinishStep(2)];
    var fenced := World({}, {"a"}, map["a" := 7], map[7 := 1], map[1 := Fenced("a", 7), 2 := Recovering("a", 7)], map[], map[], map[]);
    RunToProbe(w, before, fenced);
    LateCapture(fenced, 1, 2, "a", 7);
    RunConcat(w, before, after);
  }

  lemma RunToProbe(w: World, steps: seq<Step>, fenced: World)
    requires w == World({"a"}, {"a"}, map[], map[], map[], map[], map[], map[])
    requires steps == [SuspendStep(1, "a", 7), FindRouteStep(2, "a", 7), TryLockStep(2), UnlockStep(2, true)]
    requires fenced == World({}, {"a"}, map["a" := 7], map[7 := 1], map[1 := Fenced("a", 7), 2 := Recovering("a", 7)], map[], map[], map[])
    ensures Run(w, steps) == fenced
  {
    var w1 := World({}, {"a"}, map["a" := 7], map[7 := 1], map[1 := Fenced("a", 7)], map[], map[], map[]);
    assert After(w, steps[0]) == w1;
    var w2 := w1.(phases := map[1 := Fenced("a", 7), 2 := Probing("a", 7)]);
    assert After(w1, steps[1]) == w2;
    var w3 := w2.(phases := map[1 := Fenced("a", 7), 2 := Probed("a", 7)], exclusive := map["a" := 2]);
    assert After(w2, steps[2]) == w3;
    assert DropLocks(w3, 2).exclusive == map[];
    assert After(w3, steps[3]) == fenced;
    Unroll(w, steps);
    Unroll(w1, steps[1..]);
    Unroll(w2, steps[2..]);
    Unroll(w3, steps[3..]);
  }

  // Wherever an operator is fenced and a recovery of its barrier is past its probe, taking the
  // lock and finishing the recovery leaves a capture on an active tenant.
  lemma LateCapture(w: World, p: Process, q: Process, t: Tenant, b: BarrierId)
    requires p != q && PhaseOf(w, p) == Fenced(t, b) && PhaseOf(w, q) == Recovering(t, b)
    requires t in w.rows && w.rows[t] == b && t !in w.active && LockFree(w, t)
    ensures var w' := Run(w, [ConnectStep(p, true), TakeLockStep(p, true), FinishStep(q)]);
            Captures(w', p, t, b) && t in w'.active
  {
    var steps := [ConnectStep(p, true), TakeLockStep(p, true), FinishStep(q)];
    var w1 := Enter(w, p, Connected(t, b));
    assert After(w, steps[0]) == w1 && LockFree(w1, t);
    var w2 := After(w1, steps[1]);
    assert Captures(w2, p, t, b) && PhaseOf(w2, q) == Recovering(t, b) && w2.rows == w.rows && w2.active == w.active;
    Unroll(w, steps);
    Unroll(w1, steps[1..]);
    Unroll(w2, steps[2..]);
  }

  lemma {:induction false} RunConcat(w: World, a: seq<Step>, b: seq<Step>)
    ensures Run(w, a + b) == Run(Run(w, a), b)
    decreases a
  {
    if a == [] {
      assert a + b == b;
    } else {
      assert (a + b)[1..] == a[1..] + b;
      RunConcat(After(w, a[0]), a[1..], b);
    }
  }

  lemma Unroll(w: World, steps: seq<Step>)
    requires steps != []
    ensures Run(w, steps) == Run(After(w, steps[0]), steps[1..])
    ensures |steps| > 1 ==> steps[1..][1..] == steps[2..]
    ensures |steps| == 1 ==> Run(w, steps) == After(w, steps[0])
  {
  }

  // ---------------------------------------------------------------------------
  // Reactivation and recovery
  // ---------------------------------------------------------------------------

  // A tenant becomes active again only by the exact barrier id its row carries, and outside
  // recovery only by the process that drew that id.
  lemma ReactivationIsExact(w: World, step: Step, t: Tenant, managed: set<Tenant>)
    requires Inv(w, managed) && t !in w.active && t in After(w, step).active
    ensures step.FinishStep?
    ensures var phase := PhaseOf(w, step.p);
      && (phase.BackingOut? || phase.Releasing? || phase.Recovering?)
      && phase.tenant == t && t in w.rows && w.rows[t] == phase.barrier
      && (phase.Recovering? || w.drawn[w.rows[t]] == step.p)
  {
  }

  // Exit reactivates its tenant exactly when the row still carries its own id.
  lemma ExitReactivatesExactly(w: World, p: Process, managed: set<Tenant>)
    requires Inv(w, managed) && PhaseOf(w, p).Releasing?
    ensures var Releasing(t, b) := PhaseOf(w, p);
      (t !in w.active && t in After(w, FinishStep(p)).active) <==> (t in w.rows && w.rows[t] == b)
  {
  }

  function RecoverSteps(q: Process, t: Tenant, b: BarrierId): seq<Step> {
    [FindRouteStep(q, t, b), TryLockStep(q), UnlockStep(q, true), FinishStep(q)]
  }

  lemma RunFour(w: World, q: Process, t: Tenant, b: BarrierId)
    ensures Run(w, RecoverSteps(q, t, b)) == Finish(Unlock(TryLock(FindRoute(w, q, t, b), q), q, true), q)
  {
    var steps := RecoverSteps(q, t, b);
    var w1 := FindRoute(w, q, t, b);
    var w2 := TryLock(w1, q);
    Unroll(w, steps);
    Unroll(w1, steps[1..]);
    Unroll(w2, steps[2..]);
    Unroll(Unlock(w2, q, true), steps[3..]);
  }

  ghost predicate Recoverable(w: World, t: Tenant, b: BarrierId) {
    t in w.rows && w.rows[t] == b && t in w.healthy && LockFree(w, t)
  }

  lemma EnterTwice(w: World, p: Process, first: Phase, second: Phase)
    ensures Enter(Enter(w, p, first), p, second) == Enter(w, p, second)
  {
  }

  lemma LockReturned(w: World, q: Process, t: Tenant)
    requires LocksExclude(w) && PhaseOf(w, q).Idle? && t !in w.exclusive
    ensures DropLocks(w.(exclusive := w.exclusive[t := q]), q) == w
  {
    assert forall u | u in w.exclusive :: w.exclusive[u] != q;
  }

  lemma ProbeTaken(w: World, q: Process, t: Tenant, b: BarrierId)
    requires LocksExclude(w) && PhaseOf(w, q).Idle? && LockFree(w, t)
    ensures Unlock(TryLock(Enter(w, q, Probing(t, b)), q), q, true) == Enter(w, q, Recovering(t, b))
  {
    var taken := w.(exclusive := w.exclusive[t := q]);
    EnterTwice(taken, q, Probing(t, b), Probed(t, b));
    assert TryLock(Enter(w, q, Probing(t, b)), q) == Enter(taken, q, Probed(t, b));
    LockReturned(w, q, t);
    assert DropLocks(Enter(taken, q, Probed(t, b)), q) == Enter(w, q, Probed(t, b));
    EnterTwice(w, q, Probed(t, b), Recovering(t, b));
  }

  lemma RecoveryFinishes(w: World, q: Process, t: Tenant, b: BarrierId)
    requires w.rows.Keys !! w.active && t in w.rows && w.rows[t] == b
    ensures Finish(Enter(w, q, Recovering(t, b)), q) == Enter(w.(rows := w.rows - {t}, active := w.active + {t}), q, Idle)
  {
    EnterTwice(w.(rows := w.rows - {t}, active := w.active + {t}), q, Recovering(t, b), Idle);
  }

  lemma RecoverSucceeds(w: World, q: Process, t: Tenant, b: BarrierId)
    requires LocksExclude(w) && w.rows.Keys !! w.active && PhaseOf(w, q).Idle? && Recoverable(w, t, b)
    ensures Run(w, RecoverSteps(q, t, b)) == Enter(w.(rows := w.rows - {t}, active := w.active + {t}), q, Idle)
  {
    RunFour(w, q, t, b);
    assert FindRoute(w, q, t, b) == Enter(w, q, Probing(t, b));
    ProbeTaken(w, q, t, b);
    RecoveryFinishes(w, q, t, b);
  }

  lemma RecoverRefused(w: World, q: Process, t: Tenant, b: BarrierId)
    requires w.rows.Keys !! w.active && PhaseOf(w, q).Idle? && !Recoverable(w, t, b)
    ensures Run(w, RecoverSteps(q, t, b)) == w || Run(w, RecoverSteps(q, t, b)) == Enter(w, q, Idle)
  {
    RunFour(w, q, t, b);
    EnterTwice(w, q, Probing(t, b), Idle);
  }

  // An undisturbed recover reactivates the tenant, removes its row and leaves no lock behind
  // exactly when it names the row, the route is healthy, and nobody holds the tenant's lock.
  lemma RecoverExactly(w: World, q: Process, t: Tenant, b: BarrierId, managed: set<Tenant>)
    requires Inv(w, managed) && PhaseOf(w, q).Idle?
    ensures var w' := Run(w, RecoverSteps(q, t, b));
      if Recoverable(w, t, b)
      then t !in w.active && w' == Enter(w.(rows := w.rows - {t}, active := w.active + {t}), q, Idle)
      else w' == w || w' == Enter(w, q, Idle)
  {
    if Recoverable(w, t, b) {
      RecoverSucceeds(w, q, t, b);
    } else {
      RecoverRefused(w, q, t, b);
    }
  }

  // From any reachable state, once the lock holder has crashed and in-flight mutations have
  // ended, one recover of the remaining row makes the tenant active again.
  lemma CrashThenRecover(w: World, p: Process, q: Process, t: Tenant, managed: set<Tenant>)
    requires Inv(w, managed) && t in w.rows && t in w.healthy && p != q && PhaseOf(w, q).Idle?
    requires t in w.exclusive ==> w.exclusive[t] == p
    requires forall m | m in w.shared :: w.shared[m] != t
    ensures var w' := Run(After(w, CrashStep(p)), RecoverSteps(q, t, w.rows[t]));
            t in w'.active && t !in w'.rows && t !in w'.exclusive
  {
    var crashed := After(w, CrashStep(p));
    RowsStep(w, CrashStep(p), managed);
    LocksStep(w, CrashStep(p));
    ProbesStep(w, CrashStep(p));
    BarriersStep(w, CrashStep(p));
    RecoverExactly(crashed, q, t, w.rows[t], managed);
  }

  // ---------------------------------------------------------------------------
  // The barrier object of one process
  // ---------------------------------------------------------------------------

  class Database {
    var world: World

    constructor (world: World)
      ensures this.world == world
    {
      this.world := world;
    }
  }

  function EnterSteps(p: Process, t: Tenant, b: BarrierId, connects: bool): seq<Step> {
    if connects then [SuspendStep(p, t, b), ConnectStep(p, true), TakeLockStep(p, false), FinishStep(p)]
    else [SuspendStep(p, t, b), ConnectStep(p, false), FinishStep(p)]
  }

  ghost predicate MayEnter(w: World, p: Process, t: Tenant, b: BarrierId) {
    PhaseOf(w, p).Idle? && b !in w.drawn && t in w.active && t in w.healthy && w.rows.Keys !! w.active
  }

  lemma EnterHolds(w: World, p: Process, t: Tenant, b: BarrierId)
    requires MayEnter(w, p, t, b)
    ensures var w' := TakeLock(OpenConnection(SuspendTenant(w, p, t, b), p, true), p, true);
            && w' == Run(w, [SuspendStep(p, t, b), ConnectStep(p, true), TakeLockStep(p, true)])
            && (LockFree(w, t) ==> Captures(w', p, t, b) && w'.rows == w.rows[t := b] && w'.active == w.active - {t})
  {
    var steps := [SuspendStep(p, t, b), ConnectStep(p, true), TakeLockStep(p, true)];
    var w1 := SuspendTenant(w, p, t, b);
    var w2 := OpenConnection(w1, p, true);
    Unroll(w, steps);
    Unroll(w1, steps[1..]);
    Unroll(w2, steps[2..]);
  }

  lemma EnterStepsRun(w: World, p: Process, t: Tenant, b: BarrierId, connects: bool)
    ensures var w2 := OpenConnection(SuspendTenant(w, p, t, b), p, connects);
            Run(w, EnterSteps(p, t, b, connects)) == Finish(if connects then TakeLock(w2, p, false) else w2, p)
  {
    var steps := EnterSteps(p, t, b, connects);
    var w1 := SuspendTenant(w, p, t, b);
    var w2 := OpenConnection(w1, p, connects);
    Unroll(w, steps);
    Unroll(w1, steps[1..]);
    Unroll(w2, steps[2..]);
    if connects {
      Unroll(TakeLock(w2, p, false), steps[3..]);
    }
  }

  lemma BacksOut(w: World, p: Process, t: Tenant, b: BarrierId, connects: bool)
    requires MayEnter(w, p, t, b)
    ensures var suspended := w.(rows := w.rows[t := b], active := w.active - {t}, drawn := w.drawn[b := p]);
            var w2 := OpenConnection(SuspendTenant(w, p, t, b), p, connects);
            (if connects then TakeLock(w2, p, false) else w2) == Enter(suspended, p, BackingOut(t, b))
  {
    var suspended := w.(rows := w.rows[t := b], active := w.active - {t}, drawn := w.drawn[b := p]);
    assert SuspendTenant(w, p, t, b) == Enter(suspended, p, Fenced(t, b));
    EnterTwice(suspended, p, Fenced(t, b), BackingOut(t, b));
    EnterTwice(suspended, p, Fenced(t, b), Connected(t, b));
    EnterTwice(suspended, p, Connected(t, b), BackingOut(t, b));
  }

  lemma FinishesBackingOut(w: World, p: Process, t: Tenant, b: BarrierId)
    requires t in w.rows && w.rows[t] == b && t !in w.active
    ensures var w' := Finish(Enter(w, p, BackingOut(t, b)), p);
            PhaseOf(w', p).Idle? && w'.rows == w.rows - {t} && w'.active == w.active + {t}
  {
  }

  // A refused connection or lock undoes the suspension.
  lemma EnterBacksOut(w: World, p: Process, t: Tenant, b: BarrierId, connects: bool)
    requires MayEnter(w, p, t, b)
    ensures var w2 := OpenConnection(SuspendTenant(w, p, t, b), p, connects);
            var w' := Finish(if connects then TakeLock(w2, p, false) else w2, p);
            && w' == Run(w, EnterSteps(p, t, b, connects))
            && PhaseOf(w', p).Idle? && w'.rows == w.rows && w'.active == w.active
  {
    EnterStepsRun(w, p, t, b, connects);
    var suspended := w.(rows := w.rows[t := b], active := w.active - {t}, drawn := w.drawn[b := p]);
    BacksOut(w, p, t, b, connects);
    FinishesBackingOut(suspended, p, t, b);
    SuspendUndone(w, t, b);
  }

  lemma SuspendUndone(w: World, t: Tenant, b: BarrierId)
    requires t in w.active && w.rows.Keys !! w.active
    ensures w.rows[t := b] - {t} == w.rows && w.active - {t} + {t} == w.active
  {
  }

  datatype Outcome =
    | Done
    | AlreadyHeld
    | NotRoutable
    | EnterFailed
    | StillWaiting      // the exclusive lock is contended: the call has not returned yet
    | NotHeld
    | LockWasLost
    | ResumeFailed
    | NotRecoverable
    | StillHeld

  // Its calls are made of the atomic steps above; other processes may interleave between them.
  class ConsistencyBarrier {
    const db: Database
    const me: Process
    var connected: bool
    var tenantId: Option<Tenant>
    var barrierId: Option<BarrierId>

    constructor (db: Database, me: Process)
      requires PhaseOf(db.world, me).Idle?
      ensures this.db == db && this.me == me && Reflects()
    {
      this.db, this.me := db, me;
      connected, tenantId, barrierId := false, None, None;
    }

    // Between calls the fields say exactly how far the process got.
    ghost predicate Reflects()
      reads this, db
    {
      match PhaseOf(db.world, me)
      case Idle => !connected && tenantId.None? && barrierId.None?
      case Holding(t, b) => connected && tenantId == Some(t) && barrierId == Some(b)
      case Stuck(b) => !connected && tenantId.None? && barrierId == Some(b)
      case _ => false
    }

    ghost predicate Ran(before: World, steps: seq<Step>)
      reads this, db
    {
      db.world == Run(before, steps) && forall step | step in steps :: Actor(step) == Some(me)
    }

    method Enter(t: Tenant, b: BarrierId, connects: bool, granted: bool) returns (r: Outcome, ghost steps: seq<Step>)
      requires Reflects() && b !in db.world.drawn && db.world.rows.Keys !! db.world.active
      modifies this, db
      ensures Ran(old(db.world), steps)
      ensures r == Done <==>
        && old(PhaseOf(db.world, me)).Idle? && t in old(db.world.active) && t in old(db.world.healthy)
        && connects && granted && t !in old(db.world.exclusive)
        && forall m | m in old(db.world.shared) :: old(db.world.shared)[m] != t
      ensures r == NotRoutable <==>
        old(PhaseOf(db.world, me)).Idle? && !(t in old(db.world.active) && t in old(db.world.healthy))
      ensures r == EnterFailed <==>
        && old(PhaseOf(db.world, me)).Idle? && t in old(db.world.active) && t in old(db.world.healthy)
        && !(connects && granted)
      ensures r == Done ==>
        && Captures(db.world, me, t, b) && Reflects()
        && t in db.world.exclusive && db.world.exclusive[t] == me
        && db.world.rows == old(db.world.rows)[t := b] && db.world.active == old(db.world.active) - {t}
      ensures r == StillWaiting ==>
        && PhaseOf(db.world, me) == Connected(t, b) && db.world.exclusive == old(db.world.exclusive)
        && db.world.rows == old(db.world.rows)[t := b] && db.world.active == old(db.world.active) - {t}
      ensures r == AlreadyHeld <==> !old(PhaseOf(db.world, me)).Idle?
      ensures r == AlreadyHeld || r == NotRoutable ==> db.world == old(db.world) && Reflects()
      ensures r == EnterFailed ==>
        && Reflects() && PhaseOf(db.world, me).Idle?
        && db.world.rows == old(db.world.rows) && db.world.active == old(db.world.active)
      ensures r == StillWaiting <==>
        && old(PhaseOf(db.world, me)).Idle? && t in old(db.world.active) && t in old(db.world.healthy)
        && connects && granted && !LockFree(old(db.world), t)
    {
      steps := [];
      if connected || barrierId.Some? {
        return AlreadyHeld, steps;
      }
      if !(t in db.world.active && t in db.world.healthy) {
        return NotRoutable, steps;
      }
      r, steps := SuspendAndLock(t, b, connects, granted);
    }

    method SuspendAndLock(t: Tenant, b: BarrierId, connects: bool, granted: bool) returns (r: Outcome,
            ghost steps: seq<Step>)
      requires Reflects() && MayEnter(db.world, me, t, b)
      modifies this, db
      ensures Ran(old(db.world), steps)
      ensures r == if !(connects && granted) then EnterFailed else if LockFree(old(db.world), t) then Done else StillWaiting
      ensures r == StillWaiting ==>
        && PhaseOf(db.world, me) == Connected(t, b) && db.world.exclusive == old(db.world.exclusive)
        && db.world.rows == old(db.world.rows)[t := b] && db.world.active == old(db.world.active) - {t}
      ensures r == Done ==>
        && Captures(db.world, me, t, b) && Reflects()
        && db.world.rows == old(db.world.rows)[t := b] && db.world.active == old(db.world.active) - {t}
      ensures r == EnterFailed ==>
        && Reflects() && PhaseOf(db.world, me).Idle?
        && db.world.rows == old(db.world.rows) && db.world.active == old(db.world.active)
    {
      ghost var was := db.world;
      var free := LockFree(db.world, t);
      db.world := OpenConnection(SuspendTenant(db.world, me, t, b), me, connects);
      if connects {
        db.world := TakeLock(db.world, me, granted);
      }
      if connects && granted {
        EnterHolds(was, me, t, b);
        steps := [SuspendStep(me, t, b), ConnectStep(me, true), TakeLockStep(me, true)];
        if !free {
          return StillWaiting, steps;
        }
        connected, tenantId, barrierId := true, Some(t), Some(b);
        return Done, steps;
      }
      db.world := Finish(db.world, me);
      EnterBacksOut(was, me, t, b, connects);
      steps := EnterSteps(me, t, b, connects);
      r := EnterFailed;
    }

    method Exit(t: Tenant) returns (r: Outcome, ghost steps: seq<Step>)
      requires Reflects()
      modifies this, db
      ensures Ran(old(db.world), steps) && Reflects()
      ensures r == NotHeld <==> old(!connected || tenantId != Some(t))
      ensures r == NotHeld ==> db.world == old(db.world)
      ensures r == LockWasLost ==> db.world.rows == old(db.world.rows) && PhaseOf(db.world, me).Stuck?
      ensures r == Done <==>
        && old(HasLock(db.world, me) && tenantId == Some(t))
        && t in old(db.world.rows) && old(db.world.rows)[t] == old(barrierId).value && t !in old(db.world.active)
      ensures r == LockWasLost <==> old(connected && tenantId == Some(t) && !HasLock(db.world, me))
      ensures r == ResumeFailed <==>
        && old(HasLock(db.world, me) && tenantId == Some(t))
        && !(t in old(db.world.rows) && old(db.world.rows)[t] == old(barrierId).value && t !in old(db.world.active))
      ensures r == ResumeFailed ==> db.world.rows == old(db.world.rows) && db.world.active == old(db.world.active)
      ensures r == Done ==>
        && db.world.rows == old(db.world.rows) - {t} && db.world.active == old(db.world.active) + {t}
        && t !in db.world.exclusive && PhaseOf(db.world, me).Idle?
    {
      steps := [];
      if !connected || tenantId != Some(t) {
        return NotHeld, steps;
      }
      var b := barrierId.value;
      ghost var was := db.world;
      var unlocked := t in db.world.exclusive && db.world.exclusive[t] == me;
      db.world := Release(db.world, me);
      connected, tenantId := false, None;
      if !unlocked {
        steps := [ReleaseStep(me)];
        Unroll(was, steps);
        return LockWasLost, steps;
      }
      ghost var w1 := db.world;
      var resumable := t in db.world.rows && db.world.rows[t] == b && t !in db.world.active;
      db.world := Finish(db.world, me);
      barrierId := None;
      steps := [ReleaseStep(me), FinishStep(me)];
      Unroll(was, steps); Unroll(w1, steps[1..]);
      r := if resumable then Done else ResumeFailed;
    }

    method Recover(t: Tenant, b: BarrierId) returns (r: Outcome, ghost steps: seq<Step>)
      requires Reflects() && LocksExclude(db.world) && db.world.rows.Keys !! db.world.active
      modifies this, db
      ensures Ran(old(db.world), steps) && Reflects()
      ensures r == AlreadyHeld <==> !old(PhaseOf(db.world, me)).Idle?
      ensures r == AlreadyHeld ==> db.world == old(db.world)
      ensures r == Done <==>
        && old(PhaseOf(db.world, me)).Idle? && t in old(db.world.rows) && old(db.world.rows)[t] == b
        && t in old(db.world.healthy) && t !in old(db.world.exclusive)
        && forall m | m in old(db.world.shared) :: old(db.world.shared)[m] != t
      ensures r == NotRecoverable <==>
        && old(PhaseOf(db.world, me)).Idle?
        && !(t in old(db.world.rows) && old(db.world.rows)[t] == b && t in old(db.world.healthy))
      ensures r == Done ==>
        && db.world.rows == old(db.world.rows) - {t} && db.world.active == old(db.world.active) + {t}
        && db.world.exclusive == old(db.world.exclusive)
      ensures r != Done ==> db.world.rows == old(db.world.rows) && db.world.active == old(db.world.active)
    {
      steps := [];
      if connected || barrierId.Some? {
        return AlreadyHeld, steps;
      }
      ghost var was := db.world;
      if Recoverable(was, t, b) {
        RecoverSucceeds(was, me, t, b);
      } else {
        RecoverRefused(was, me, t, b);
      }
      RunFour(was, me, t, b);
      steps := RecoverSteps(me, t, b);
      var found := t in db.world.rows && db.world.rows[t] == b && t !in db.world.active && t in db.world.healthy;
      var free := LockFree(db.world, t);
      db.world := FindRoute(db.world, me, t, b);
      db.world := TryLock(db.world, me);
      db.world := Unlock(db.world, me, true);
      db.world := Finish(db.world, me);
      r := if !found then NotRecoverable else if !free then StillHeld else Done;
    }
  }
}
