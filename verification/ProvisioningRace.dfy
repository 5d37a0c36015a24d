// Provisioner calls that overlap: any number of callers, interleaved at every store operation and
// every adapter call, each of which can fail and each caller stop at any point.
module ProvisioningRace {
  import opened Common
  import opened Provisioning

  type Caller = int

  // Where a call stands: its plan is made; it is about to try the k-th step or a later one, knowing
  // which were completed when it last heard; a step went through and is to be recorded; one failed.
  datatype Pc =
    | Planned(m: Manifest)
    | Trying(m: Manifest, completed: seq<Step>, k: nat)
    | Marking(m: Manifest, k: nat)
    | Failing(m: Manifest, step: Step)

  // An adapter call, the manifest it was made for, and whether it came back without raising.
  datatype Made = Made(fingerprint: string, step: Step, ok: bool)

  datatype World = World(states: States, log: map<string, seq<Made>>, callers: map<Caller, Pc>)

  const START := World(map[], map[], map[])

  function MadeFor(w: World, tenant: string): seq<Made> {
    if tenant in w.log then w.log[tenant] else []
  }

  function Leave(w: World, c: Caller): World {
    w.(callers := w.callers - {c})
  }

  function Go(w: World, c: Caller, pc: Pc): World {
    w.(callers := w.callers[c := pc])
  }

  // ---------------------------------------------------------------------------
  // The atomic steps
  // ---------------------------------------------------------------------------

  function Begin(w: World, c: Caller, m: Manifest): World {
    if c in w.callers then w
    else if m.tenant in w.states && (w.states[m.tenant].fingerprint != m.fingerprint || !IsValidPrefix(w.states[m.tenant])
                                     || IsNoop(w.states[m.tenant])) then w
    else Go(w, c, Planned(m))
  }

  function Opening(w: World, c: Caller, m: Manifest): World {
    match Start(w.states, m)
    case None => Leave(w, c)
    case Some(states) =>
      var completed := states[m.tenant].completed;
      var w1 := w.(states := states);
      if completed[..Min(1, |completed|)] != [RecordControlState] then Leave(w1, c) else Go(w1, c, Trying(m, completed, 0))
  }

  // The first step, from the k-th on, that the call does not know to be completed.
  function Pending(completed: seq<Step>, k: nat): (n: nat)
    ensures n == k || k < n <= |STEPS|
    ensures forall i | k <= i < n && i < |STEPS| :: STEPS[i] in completed
    ensures n < |STEPS| ==> STEPS[n] !in completed
    decreases |STEPS| - k
  {
    if k < |STEPS| && STEPS[k] in completed then Pending(completed, k + 1) else k
  }

  function Noted(w: World, m: Manifest, step: Step, ok: bool): World {
    w.(log := w.log[m.tenant := MadeFor(w, m.tenant) + [Made(m.fingerprint, step, ok)]])
  }

  function Try(w: World, c: Caller, m: Manifest, completed: seq<Step>, k: nat, ok: bool): World {
    var n := Pending(completed, k);
    if n >= |STEPS| then Leave(w, c)
    else if STEPS[n] == Activate then Activating(w, c, m)
    else Go(Noted(w, m, STEPS[n], ok), c, if ok then Marking(m, n) else Failing(m, STEPS[n]))
  }

  function Activating(w: World, c: Caller, m: Manifest): World {
    match MarkActive(w.states, m.tenant)
    case None => Go(w, c, Failing(m, Activate))
    case Some(states) => Leave(w.(states := states), c)
  }

  function Mark(w: World, c: Caller, m: Manifest, k: nat): World {
    if k >= |STEPS| then Leave(w, c)
    else match MarkCompleted(w.states, m.tenant, STEPS[k])
      case None => Go(w, c, Failing(m, STEPS[k]))
      case Some(states) => Go(w.(states := states), c, Trying(m, states[m.tenant].completed, k + 1))
  }

  function Break(w: World, c: Caller, m: Manifest, step: Step): World {
    match MarkFailed(w.states, m.tenant, step, "Exception")
    case None => Leave(w, c)
    case Some(states) => Leave(w.(states := states), c)
  }

  // The next atomic step of a caller inside a call; `ok` says whether an adapter call succeeds.
  function Continue(w: World, c: Caller, pc: Pc, ok: bool): World {
    match pc
    case Planned(m) => Opening(w, c, m)
    case Trying(m, completed, k) => Try(w, c, m, completed, k, ok)
    case Marking(m, k) => Mark(w, c, m, k)
    case Failing(m, step) => Break(w, c, m, step)
  }

  datatype Event = BeginEvent(c: Caller, m: Manifest) | ContinueEvent(c: Caller, ok: bool) | CrashEvent(c: Caller)

  function Apply(w: World, e: Event): World {
    match e
    case BeginEvent(c, m) => Begin(w, c, m)
    case ContinueEvent(c, ok) => if c in w.callers then Continue(w, c, w.callers[c], ok) else w
    case CrashEvent(c) => Leave(w, c)
  }

  function Run(w: World, events: seq<Event>): World
    decreases |events|
  {
    if events == [] then w else Run(Apply(w, events[0]), events[1..])
  }

  // ---------------------------------------------------------------------------
  // The invariant
  // ---------------------------------------------------------------------------

  // Every recorded step that has an adapter call had a successful one, for this very manifest.
  predicate Earned(p: Progress, h: seq<Made>) {
    forall k | 1 <= k < |p.completed| && k < LAST :: Made(p.fingerprint, STEPS[k], true) in h
  }

  predicate TenantSound(w: World, t: string) {
    t in w.states ==> ProgressFits(w.states[t]) && Earned(w.states[t], MadeFor(w, t))
  }

  predicate Owns(w: World, m: Manifest) {
    m.tenant in w.states && w.states[m.tenant].fingerprint == m.fingerprint
  }

  // What a call knows to be completed is a part of what is.
  predicate Knows(w: World, m: Manifest, n: nat) {
    Owns(w, m) && n <= |w.states[m.tenant].completed|
  }

  predicate PcSound(w: World, pc: Pc) {
    match pc
    case Planned(_) => true
    case Trying(m, completed, k) => completed <= STEPS && k <= |completed| && Knows(w, m, |completed|)
    case Marking(m, k) => k < LAST && Knows(w, m, k) && Made(m.fingerprint, STEPS[k], true) in MadeFor(w, m.tenant)
    case Failing(m, _) => Owns(w, m)
  }

  ghost predicate Inv(w: World) {
    && (forall t :: TenantSound(w, t))
    && (forall c | c in w.callers :: PcSound(w, w.callers[c]))
  }

  // ---------------------------------------------------------------------------
  // Every step keeps the invariant
  // ---------------------------------------------------------------------------

  // Progress only grows, and adapter calls are only added.
  ghost predicate Extends(w: World, w': World) {
    && (forall t | t in w.states :: t in w'.states && Grew(w.states[t], w'.states[t]))
    && (forall t :: MadeFor(w, t) <= MadeFor(w', t))
  }

  lemma PcStaysSound(w: World, w': World, pc: Pc)
    requires PcSound(w, pc) && Extends(w, w')
    ensures PcSound(w', pc)
  {
    match pc
    case Planned(_) =>
    case Trying(m, _, _) => assert Grew(w.states[m.tenant], w'.states[m.tenant]);
    case Marking(m, _) =>
      assert Grew(w.states[m.tenant], w'.states[m.tenant]);
      assert MadeFor(w, m.tenant) <= MadeFor(w', m.tenant);
    case Failing(m, _) => assert Grew(w.states[m.tenant], w'.states[m.tenant]);
  }

  lemma StepKeeps(w: World, w': World, c: Caller)
    requires Inv(w) && Extends(w, w') && w'.callers - {c} == w.callers - {c}
    requires forall t :: TenantSound(w', t)
    requires c in w'.callers ==> PcSound(w', w'.callers[c])
    ensures Inv(w')
  {
    forall d | d in w'.callers ensures PcSound(w', w'.callers[d]) {
      if d != c {
        assert d in w'.callers - {c};
        PcStaysSound(w, w', w.callers[d]);
      }
    }
  }

  // A store operation that goes through.
  lemma StoreExtends(w: World, op: StoreOp)
    requires Inv(w)
    ensures var states := StoreStep(w.states, op);
            StatesFit(states) && forall t | t in w.states :: t in states && Grew(w.states[t], states[t])
  {
    forall t | t in w.states ensures ProgressFits(w.states[t]) { assert TenantSound(w, t); }
    StoreStepKeeps(w.states, op);
  }

  lemma MovesKeep(w: World, w': World, c: Caller)
    requires Inv(w) && w'.states == w.states && w'.log == w.log && w'.callers - {c} == w.callers - {c}
    requires c in w'.callers ==> PcSound(w', w'.callers[c])
    ensures Inv(w')
  {
    forall t ensures TenantSound(w', t) { assert TenantSound(w, t); }
    StepKeeps(w, w', c);
  }

  // Only the tenant worked on changes in the store.
  lemma ChangeKeeps(w: World, w': World, c: Caller, op: StoreOp, t: string)
    requires Inv(w) && w'.log == w.log && w'.states == StoreStep(w.states, op) && w'.callers - {c} == w.callers - {c}
    requires w'.states - {t} == w.states - {t}
    requires t in w'.states ==> Earned(w'.states[t], MadeFor(w, t))
    requires c in w'.callers ==> PcSound(w', w'.callers[c])
    ensures Inv(w')
  {
    StoreExtends(w, op);
    forall u ensures TenantSound(w', u) {
      assert TenantSound(w, u);
      if u != t && u in w'.states { assert u in w'.states - {t}; }
    }
    StepKeeps(w, w', c);
  }

  lemma OpeningKeeps(w: World, c: Caller, m: Manifest)
    requires Inv(w) && c in w.callers && w.callers[c] == Planned(m)
    ensures Inv(Opening(w, c, m))
  {
    var w' := Opening(w, c, m);
    assert TenantSound(w, m.tenant);
    match Start(w.states, m)
    case None => MovesKeep(w, w', c);
    case Some(states) =>
      StoreExtends(w, StartOp(m));
      assert states - {m.tenant} == w.states - {m.tenant};
      assert ProgressFits(states[m.tenant]);
      ChangeKeeps(w, w', c, StartOp(m), m.tenant);
  }

  lemma NotedKeeps(w: World, m: Manifest, step: Step, ok: bool)
    requires Inv(w)
    ensures Inv(Noted(w, m, step, ok)) && Extends(w, Noted(w, m, step, ok))
  {
    var w' := Noted(w, m, step, ok);
    forall t ensures TenantSound(w', t) { assert TenantSound(w, t); }
    forall c | c in w'.callers ensures PcSound(w', w'.callers[c]) { PcStaysSound(w, w', w.callers[c]); }
  }

  lemma ActivatingKeeps(w: World, c: Caller, m: Manifest)
    requires Inv(w) && c in w.callers && Owns(w, m)
    ensures Inv(Activating(w, c, m))
  {
    var w' := Activating(w, c, m);
    assert TenantSound(w, m.tenant);
    match MarkActive(w.states, m.tenant)
    case None => MovesKeep(w, w', c);
    case Some(states) =>
      assert states - {m.tenant} == w.states - {m.tenant};
      ChangeKeeps(w, w', c, ActivateOp(m.tenant), m.tenant);
  }

  // The step a call tries is the one after those it knows.
  lemma PendingIsNext(completed: seq<Step>, k: nat)
    requires completed <= STEPS && k <= |completed|
    ensures Pending(completed, k) == |completed|
  {
    var n := Pending(completed, k);
    assert forall i | 0 <= i < |completed| :: completed[i] == STEPS[i];
    if |completed| < |STEPS| {
      forall i | 0 <= i < |completed| ensures completed[i] != STEPS[|completed|] { StepsAreDistinct(i, |completed|); }
    }
  }

  lemma TryKeeps(w: World, c: Caller, m: Manifest, completed: seq<Step>, k: nat, ok: bool)
    requires Inv(w) && c in w.callers && w.callers[c] == Trying(m, completed, k)
    ensures Inv(Try(w, c, m, completed, k, ok))
  {
    assert PcSound(w, w.callers[c]);
    PendingIsNext(completed, k);
    var n := |completed|;
    if n == |STEPS| {
      MovesKeep(w, Leave(w, c), c);
    } else if STEPS[n] == Activate {
      ActivatingKeeps(w, c, m);
    } else {
      var w1 := Noted(w, m, STEPS[n], ok);
      NotedKeeps(w, m, STEPS[n], ok);
      NotLast(n);
      assert MadeFor(w1, m.tenant)[|MadeFor(w, m.tenant)|] == Made(m.fingerprint, STEPS[n], ok);
      MovesKeep(w1, Try(w, c, m, completed, k, ok), c);
    }
  }

  lemma NotLast(n: nat)
    requires n < |STEPS| && STEPS[n] != Activate
    ensures n < LAST
  {
  }

  lemma MarkEarns(p: Progress, k: nat, h: seq<Made>)
    requires ProgressFits(p) && Earned(p, h) && k < LAST && Made(p.fingerprint, STEPS[k], true) in h
    requires Some(STEPS[k]) == NextStep(p.completed)
    ensures |p.completed| == k && Earned(p.(completed := p.completed + [STEPS[k]]), h)
  {
    if |p.completed| < k { StepsAreDistinct(|p.completed|, k); }
    if |p.completed| > k { StepsAreDistinct(k, |p.completed|); }
  }

  lemma MarkKeeps(w: World, c: Caller, m: Manifest, k: nat)
    requires Inv(w) && c in w.callers && w.callers[c] == Marking(m, k)
    ensures Inv(Mark(w, c, m, k))
  {
    var w' := Mark(w, c, m, k);
    assert TenantSound(w, m.tenant) && PcSound(w, w.callers[c]);
    match MarkCompleted(w.states, m.tenant, STEPS[k])
    case None => MovesKeep(w, w', c);
    case Some(states) =>
      MarkEarns(w.states[m.tenant], k, MadeFor(w, m.tenant));
      StoreExtends(w, CompleteOp(m.tenant, STEPS[k]));
      assert states - {m.tenant} == w.states - {m.tenant};
      assert ProgressFits(states[m.tenant]);
      ChangeKeeps(w, w', c, CompleteOp(m.tenant, STEPS[k]), m.tenant);
  }

  lemma BreakKeeps(w: World, c: Caller, m: Manifest, step: Step)
    requires Inv(w) && c in w.callers
    ensures Inv(Break(w, c, m, step))
  {
    var w' := Break(w, c, m, step);
    assert TenantSound(w, m.tenant);
    match MarkFailed(w.states, m.tenant, step, "Exception")
    case None => MovesKeep(w, w', c);
    case Some(states) =>
      assert states - {m.tenant} == w.states - {m.tenant};
      ChangeKeeps(w, w', c, FailOp(m.tenant, step, "Exception"), m.tenant);
  }

  lemma ApplyKeeps(w: World, e: Event)
    requires Inv(w)
    ensures Inv(Apply(w, e))
  {
    match e
    case BeginEvent(c, m) => MovesKeep(w, Begin(w, c, m), c);
    case CrashEvent(c) => MovesKeep(w, Leave(w, c), c);
    case ContinueEvent(c, ok) =>
      if c in w.callers {
        match w.callers[c]
        case Planned(m) => OpeningKeeps(w, c, m);
        case Trying(m, completed, k) => TryKeeps(w, c, m, completed, k, ok);
        case Marking(m, k) => MarkKeeps(w, c, m, k);
        case Failing(m, step) => BreakKeeps(w, c, m, step);
      }
  }

  lemma {:induction false} RunKeeps(w: World, events: seq<Event>)
    requires Inv(w)
    ensures Inv(Run(w, events))
    decreases |events|
  {
    if events != [] {
      ApplyKeeps(w, events[0]);
      RunKeeps(Apply(w, events[0]), events[1..]);
    }
  }

  lemma StartFits()
    ensures Inv(START)
  {
  }

  // ---------------------------------------------------------------------------
  // The results
  // ---------------------------------------------------------------------------

  // However calls overlap, fail and stop: a tenant's completed steps are a prefix of the ten, it is
  // active exactly when all ten are, and then every step - the three verifications among them - had
  // an adapter call that succeeded, made for the manifest the tenant is provisioned under.
  lemma ActiveIsEarned(events: seq<Event>, t: string)
    requires t in Run(START, events).states
    ensures var w := Run(START, events);
            var p := w.states[t];
            && p.completed != [] && p.completed <= STEPS && (p.status == Active <==> p.completed == STEPS)
            && (p.status == Active ==> forall k | 1 <= k < LAST :: Made(p.fingerprint, STEPS[k], true) in MadeFor(w, t))
  {
    StartFits();
    RunKeeps(START, events);
    var w := Run(START, events);
    assert TenantSound(w, t);
    ActivateIsLast(w.states[t].completed);
  }

  // The call of caller `c` is about to make an adapter call for a step that is already recorded.
  predicate Repeats(w: World, c: Caller) {
    && c in w.callers && w.callers[c].Trying?
    && var pc := w.callers[c];
       var n := Pending(pc.completed, pc.k);
       n < LAST && pc.m.tenant in w.states && STEPS[n] in w.states[pc.m.tenant].completed
  }

  // A recorded step is executed again exactly by a call that another one has overtaken: more is
  // completed by now than when the call last heard.
  lemma RepeatsExactly(events: seq<Event>, c: Caller)
    requires var w := Run(START, events); c in w.callers && w.callers[c].Trying? && |w.callers[c].completed| < LAST
    ensures var w := Run(START, events);
            var pc := w.callers[c];
            pc.m.tenant in w.states && (Repeats(w, c) <==> |pc.completed| < |w.states[pc.m.tenant].completed|)
  {
    StartFits();
    RunKeeps(START, events);
    var w := Run(START, events);
    var pc := w.callers[c];
    assert PcSound(w, pc) && TenantSound(w, pc.m.tenant);
    PendingIsNext(pc.completed, pc.k);
    var n, done := |pc.completed|, w.states[pc.m.tenant].completed;
    if n < |done| { assert done[n] == STEPS[n]; }
    if STEPS[n] in done {
      var i :| 0 <= i < |done| && done[i] == STEPS[n];
      if i < n { StepsAreDistinct(i, n); }
    }
  }
}
