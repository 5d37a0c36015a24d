// Resumable tenant provisioning: ten steps in a fixed order, each recorded before the next
// begins, so that a call that failed or died can be made again.
module Provisioning {
  import opened Common

  datatype Step =
    | RecordControlState | WriteSecrets | StartNeo4j | CreateTenantDatabase | MigratePostgres
    | MigrateNeo4j | VerifyNeo4jHealth | VerifyRouting | VerifyIsolation | Activate

  const STEPS: seq<Step> := [
    RecordControlState, WriteSecrets, StartNeo4j, CreateTenantDatabase, MigratePostgres,
    MigrateNeo4j, VerifyNeo4jHealth, VerifyRouting, VerifyIsolation, Activate]

  const LAST := 9   // the index of Activate

  datatype Status = InProgress | Failed | Active

  datatype Manifest = Manifest(tenant: string, fingerprint: string, names: seq<string>)

  datatype Progress = Progress(
    fingerprint: string,
    names: seq<string>,
    status: Status,
    completed: seq<Step>,
    failedStep: Option<Step>,
    failureCode: Option<string>,
    attempt: nat)

  type States = map<string, Progress>

  // ---------------------------------------------------------------------------
  // The progress store
  // ---------------------------------------------------------------------------

  predicate IsValidPrefix(p: Progress) {
    p.completed <= STEPS && (Activate in p.completed <==> p.status == Active)
  }

  function NextStep(completed: seq<Step>): Option<Step> {
    if |completed| >= |STEPS| then None else Some(STEPS[|completed|])
  }

  // None is the conflict raised by the program.
  function Start(states: States, m: Manifest): Option<States> {
    if m.tenant !in states then
      Some(states[m.tenant := Progress(m.fingerprint, m.names, InProgress, [RecordControlState], None, None, 1)])
    else
      var p := states[m.tenant];
      if p.fingerprint != m.fingerprint then None
      else if p.status == Active then Some(states)
      else if !IsValidPrefix(p) then None
      else Some(states[m.tenant := p.(status := InProgress, failedStep := None, failureCode := None, attempt := p.attempt + 1)])
  }

  predicate Provisions(states: States, tenant: string) {
    tenant in states && states[tenant].status == InProgress && IsValidPrefix(states[tenant])
  }

  function MarkCompleted(states: States, tenant: string, step: Step): Option<States> {
    if !Provisions(states, tenant) || step == Activate || Some(step) != NextStep(states[tenant].completed) then None
    else Some(states[tenant := states[tenant].(completed := states[tenant].completed + [step])])
  }

  function MarkFailed(states: States, tenant: string, step: Step, code: string): Option<States> {
    if !Provisions(states, tenant) || Some(step) != NextStep(states[tenant].completed) then None
    else Some(states[tenant := states[tenant].(status := Failed, failedStep := Some(step), failureCode := Some(code))])
  }

  function MarkActive(states: States, tenant: string): Option<States> {
    if !Provisions(states, tenant) || NextStep(states[tenant].completed) != Some(Activate) then None
    else Some(states[tenant := states[tenant].(status := Active, completed := states[tenant].completed + [Activate])])
  }

  // ---------------------------------------------------------------------------
  // One call of the provisioner
  // ---------------------------------------------------------------------------

  // An adapter call, and whether it came back without raising.
  datatype Executed = Executed(step: Step, ok: bool)

  datatype State = State(states: States, log: map<string, seq<Executed>>)

  const EMPTY := State(map[], map[])

  function LogOf(s: State, tenant: string): seq<Executed> {
    if tenant in s.log then s.log[tenant] else []
  }

  function Note(s: State, tenant: string, e: Executed): State {
    s.(log := s.log[tenant := LogOf(s, tenant) + [e]])
  }

  // What happens when the process reaches a step: it succeeds, it raises, or the process dies
  // just before the step, just after it took effect, or after it raised, and before that is
  // recorded.
  datatype Fate = Succeeds | Raises | DiesBefore | DiesAfter | RaisesAndDies

  type Fates = map<Step, Fate>

  function FateOf(fates: Fates, step: Step): Fate {
    if step in fates then fates[step] else Succeeds
  }

  datatype Reply = Provisioned(p: Progress) | FailedAt(step: Step) | Conflict | Died

  predicate IsNoop(p: Progress) {
    forall k | 0 <= k < |STEPS| :: STEPS[k] in p.completed
  }

  function Fail(s: State, m: Manifest, step: Step): (State, Reply) {
    match MarkFailed(s.states, m.tenant, step, "Exception")
    case Some(states) => (s.(states := states), FailedAt(step))
    case None => (s, Conflict)
  }

  function Finish(s: State, m: Manifest, fates: Fates): (State, Reply) {
    if FateOf(fates, Activate) == DiesBefore || FateOf(fates, Activate) == RaisesAndDies then (s, Died)
    else if FateOf(fates, Activate) == Raises then Fail(s, m, Activate)
    else match MarkActive(s.states, m.tenant)
      case None => Fail(s, m, Activate)
      case Some(states) =>
        (s.(states := states), if FateOf(fates, Activate) == DiesAfter then Died else Provisioned(states[m.tenant]))
  }

  datatype Attempt = Went(s: State, completed: seq<Step>) | Stopped(s: State, reply: Reply)

  function Stop(r: (State, Reply)): Attempt {
    Stopped(r.0, r.1)
  }

  // One step other than activation: execute it, then record it.
  function Try(s: State, m: Manifest, step: Step, fates: Fates): Attempt {
    match FateOf(fates, step)
    case DiesBefore => Stopped(s, Died)
    case DiesAfter => Stopped(Note(s, m.tenant, Executed(step, true)), Died)
    case RaisesAndDies => Stopped(Note(s, m.tenant, Executed(step, false)), Died)
    case Raises => Stop(Fail(Note(s, m.tenant, Executed(step, false)), m, step))
    case Succeeds =>
      var s1 := Note(s, m.tenant, Executed(step, true));
      match MarkCompleted(s1.states, m.tenant, step)
      case None => Stop(Fail(s1, m, step))
      case Some(states) => Went(s1.(states := states), states[m.tenant].completed)
  }

  // The steps from the k-th on, given those already completed.
  function RunSteps(s: State, m: Manifest, completed: seq<Step>, k: nat, fates: Fates): (State, Reply)
    requires k <= |STEPS|
    decreases |STEPS| - k
  {
    if k == |STEPS| then (s, Conflict)
    else
      var step := STEPS[k];
      if step in completed then RunSteps(s, m, completed, k + 1, fates)
      else if step == Activate then Finish(s, m, fates)
      else
        var a := Try(s, m, step, fates);
        if a.Stopped? then (a.s, a.reply) else RunSteps(a.s, m, a.completed, k + 1, fates)
  }

  function Apply(s: State, m: Manifest, fates: Fates): (State, Reply) {
    if m.tenant in s.states && (s.states[m.tenant].fingerprint != m.fingerprint || !IsValidPrefix(s.states[m.tenant])) then (s, Conflict)
    else if m.tenant in s.states && IsNoop(s.states[m.tenant]) then (s, Provisioned(s.states[m.tenant]))
    else match Start(s.states, m)
      case None => (s, Conflict)
      case Some(states) =>
        var p := states[m.tenant];
        if p.completed[..Min(1, |p.completed|)] != [RecordControlState] then (s.(states := states), Conflict)
        else RunSteps(s.(states := states), m, p.completed, 0, fates)
  }

  function Min(a: nat, b: nat): nat {
    if a <= b then a else b
  }

  // ---------------------------------------------------------------------------
  // The store under any interleaving of its operations
  // ---------------------------------------------------------------------------

  datatype StoreOp =
    | StartOp(m: Manifest)
    | CompleteOp(tenant: string, step: Step)
    | FailOp(tenant: string, step: Step, code: string)
    | ActivateOp(tenant: string)

  function StoreStep(states: States, op: StoreOp): States {
    var r := match op
      case StartOp(m) => Start(states, m)
      case CompleteOp(tenant, step) => MarkCompleted(states, tenant, step)
      case FailOp(tenant, step, code) => MarkFailed(states, tenant, step, code)
      case ActivateOp(tenant) => MarkActive(states, tenant);
    if r.Some? then r.value else states
  }

  function StoreRun(states: States, ops: seq<StoreOp>): States
    decreases |ops|
  {
    if ops == [] then states else StoreRun(StoreStep(states, ops[0]), ops[1..])
  }

  predicate ProgressFits(p: Progress) {
    && p.completed != [] && IsValidPrefix(p) && p.attempt >= 1
    && (p.status == Failed <==> p.failedStep.Some?)
    && (p.status == Failed ==> p.failedStep == NextStep(p.completed))
  }

  predicate StatesFit(states: States) {
    forall t | t in states :: ProgressFits(states[t])
  }

  predicate Grew(a: Progress, b: Progress) {
    && a.fingerprint == b.fingerprint && a.names == b.names && a.completed <= b.completed && a.attempt <= b.attempt
    && (a.status == Active ==> b == a)
  }

  lemma ActivateIsLast(completed: seq<Step>)
    requires completed <= STEPS
    ensures Activate in completed <==> |completed| == |STEPS|
  {
    if |completed| == |STEPS| {
      assert completed[LAST] == Activate;
    }
    if Activate in completed {
      var i :| 0 <= i < |completed| && completed[i] == Activate;
      assert STEPS[i] == Activate;
    }
  }

  lemma RestartFits(p: Progress)
    requires ProgressFits(p) && p.status != Active
    ensures var q := p.(status := InProgress, failedStep := None, failureCode := None, attempt := p.attempt + 1);
            ProgressFits(q) && Grew(p, q)
  {
  }

  lemma CompletedFits(p: Progress, step: Step)
    requires ProgressFits(p) && p.status == InProgress && step != Activate && Some(step) == NextStep(p.completed)
    ensures var q := p.(completed := p.completed + [step]); ProgressFits(q) && Grew(p, q)
  {
    ActivateIsLast(p.completed);
    ActivateIsLast(p.completed + [step]);
  }

  lemma FailedFits(p: Progress, step: Step, code: string)
    requires ProgressFits(p) && p.status == InProgress && Some(step) == NextStep(p.completed)
    ensures var q := p.(status := Failed, failedStep := Some(step), failureCode := Some(code)); ProgressFits(q) && Grew(p, q)
  {
  }

  lemma ActivatedFits(p: Progress)
    requires ProgressFits(p) && p.status == InProgress && NextStep(p.completed) == Some(Activate)
    ensures var q := p.(status := Active, completed := p.completed + [Activate]); ProgressFits(q) && Grew(p, q)
  {
  }

  lemma FirstFits(m: Manifest)
    ensures ProgressFits(Progress(m.fingerprint, m.names, InProgress, [RecordControlState], None, None, 1))
  {
    assert [RecordControlState] <= STEPS;
  }

  lemma StoreStepKeeps(states: States, op: StoreOp)
    requires StatesFit(states)
    ensures StatesFit(StoreStep(states, op))
    ensures forall t | t in states :: t in StoreStep(states, op) && Grew(states[t], StoreStep(states, op)[t])
  {
    var t := if op.StartOp? then op.m.tenant else op.tenant;
    if t in states && StoreStep(states, op) != states {
      var p := states[t];
      assert ProgressFits(p);
      match op
      case StartOp(m) => RestartFits(p);
      case CompleteOp(_, step) => CompletedFits(p, step);
      case FailOp(_, step, code) => FailedFits(p, step, code);
      case ActivateOp(_) => ActivatedFits(p);
    } else if op.StartOp? {
      FirstFits(op.m);
    }
  }

  // Whatever calls several provisioners make on the store, in whatever order: a tenant's
  // completed steps stay a growing prefix of the ten under the fingerprint it started with, and
  // it is active exactly when all ten are there.
  lemma {:induction false} StoreRunKeeps(states: States, ops: seq<StoreOp>)
    requires StatesFit(states)
    ensures forall t | t in StoreRun(states, ops) ::
              var p := StoreRun(states, ops)[t];
              p.completed != [] && p.completed <= STEPS && (p.status == Active <==> p.completed == STEPS)
    ensures forall t | t in states :: t in StoreRun(states, ops) && Grew(states[t], StoreRun(states, ops)[t])
    decreases |ops|
  {
    if ops == [] {
      forall t | t in states
        ensures states[t].completed != [] && states[t].completed <= STEPS && (states[t].status == Active <==> states[t].completed == STEPS)
      {
        assert ProgressFits(states[t]);
        ActivateIsLast(states[t].completed);
      }
    } else {
      StoreStepKeeps(states, ops[0]);
      StoreRunKeeps(StoreStep(states, ops[0]), ops[1..]);
    }
  }

  // ---------------------------------------------------------------------------
  // What one call does, in closed form
  // ---------------------------------------------------------------------------

  // The first step, from the n-th on, that does not go through.
  function FirstStop(n: nat, fates: Fates): (f: nat)
    requires n <= LAST
    ensures n <= f <= LAST
    ensures forall k | n <= k < f :: FateOf(fates, STEPS[k]) == Succeeds
    ensures f < LAST ==> FateOf(fates, STEPS[f]) != Succeeds
    decreases LAST - n
  {
    if n < LAST && FateOf(fates, STEPS[n]) == Succeeds then FirstStop(n + 1, fates) else n
  }

  function Passes(n: nat, f: nat): seq<Executed>
    requires n <= f <= LAST
  {
    seq(f - n, i requires 0 <= i < f - n => Executed(STEPS[n + i], true))
  }

  // The adapter calls made: every pending step up to the one that stops the call.
  function Trace(n: nat, f: nat, fates: Fates): seq<Executed>
    requires n <= f <= LAST
  {
    Passes(n, f) + if f == LAST || FateOf(fates, STEPS[f]) == DiesBefore then []
                   else [Executed(STEPS[f], FateOf(fates, STEPS[f]) == DiesAfter)]
  }

  // The progress recorded: the steps before the stop, and a failure when the step raised.
  function Recorded(p: Progress, f: nat, fates: Fates): Progress
    requires f <= LAST
  {
    var done := p.(completed := STEPS[..f]);
    match FateOf(fates, STEPS[f])
    case Raises => done.(status := Failed, failedStep := Some(STEPS[f]), failureCode := Some("Exception"))
    case DiesBefore => done
    case RaisesAndDies => done
    case _ => if f == LAST then p.(completed := STEPS, status := Active) else done
  }

  // The answer: the step that raised, the finished progress, or none at all.
  function Replied(p: Progress, f: nat, fates: Fates): Reply
    requires f <= LAST
  {
    match FateOf(fates, STEPS[f])
    case Raises => FailedAt(STEPS[f])
    case Succeeds => if f == LAST then Provisioned(p.(completed := STEPS, status := Active)) else Died
    case _ => Died
  }

  predicate Stands(s: State, m: Manifest, p: Progress, n: nat) {
    && m.tenant in s.states && s.states[m.tenant] == p && p.status == InProgress
    && 1 <= n <= LAST && p.completed == STEPS[..n]
  }

  lemma StandsIsValid(p: Progress, n: nat)
    requires p.status == InProgress && n <= LAST && p.completed == STEPS[..n]
    ensures IsValidPrefix(p) && NextStep(p.completed) == Some(STEPS[n])
  {
    ActivateIsLast(p.completed);
  }

  lemma NotYetCompleted(n: nat)
    requires n < |STEPS|
    ensures STEPS[n] !in STEPS[..n]
  {
  }

  lemma {:induction false} SkipCompleted(s: State, m: Manifest, n: nat, k: nat, fates: Fates)
    requires k <= n <= LAST
    ensures RunSteps(s, m, STEPS[..n], k, fates) == RunSteps(s, m, STEPS[..n], n, fates)
    decreases n - k
  {
    if k < n {
      assert STEPS[..n][k] == STEPS[k];
      SkipCompleted(s, m, n, k + 1, fates);
    }
  }

  predicate Touches(s: State, s': State, m: Manifest, p: Progress, trace: seq<Executed>) {
    && s'.states == s.states[m.tenant := p]
    && LogOf(s', m.tenant) == LogOf(s, m.tenant) + trace
    && s'.log - {m.tenant} == s.log - {m.tenant}
  }

  lemma FinishExactly(s: State, m: Manifest, p: Progress, fates: Fates)
    requires Stands(s, m, p, LAST)
    ensures Touches(s, Finish(s, m, fates).0, m, Recorded(p, LAST, fates), [])
    ensures Finish(s, m, fates).1 == Replied(p, LAST, fates)
  {
    StandsIsValid(p, LAST);
    assert STEPS[..LAST] + [Activate] == STEPS;
    assert s.states[m.tenant := p] == s.states;
  }

  lemma StopExactly(s: State, m: Manifest, p: Progress, n: nat, fates: Fates)
    requires Stands(s, m, p, n) && n < LAST && FateOf(fates, STEPS[n]) != Succeeds
    ensures Touches(s, RunSteps(s, m, STEPS[..n], n, fates).0, m, Recorded(p, n, fates), Trace(n, n, fates))
    ensures RunSteps(s, m, STEPS[..n], n, fates).1 == Replied(p, n, fates)
  {
    StandsIsValid(p, n);
    NotYetCompleted(n);
    assert STEPS[n] != Activate;
    assert s.states[m.tenant := p] == s.states;
    assert p.(completed := STEPS[..n]) == p;
  }

  lemma StepExactly(s: State, m: Manifest, p: Progress, n: nat, fates: Fates)
    requires Stands(s, m, p, n) && n < LAST && FateOf(fates, STEPS[n]) == Succeeds
    ensures var s1 := Note(s, m.tenant, Executed(STEPS[n], true));
            var p1 := p.(completed := STEPS[..n + 1]);
            var s2 := s1.(states := s.states[m.tenant := p1]);
            && RunSteps(s, m, STEPS[..n], n, fates) == RunSteps(s2, m, STEPS[..n + 1], n + 1, fates)
            && Stands(s2, m, p1, n + 1)
  {
    StandsIsValid(p, n);
    NotYetCompleted(n);
    assert STEPS[n] != Activate;
    assert STEPS[..n] + [STEPS[n]] == STEPS[..n + 1];
  }

  lemma TraceFrom(n: nat, f: nat, fates: Fates)
    requires n < f <= LAST
    ensures Trace(n, f, fates) == [Executed(STEPS[n], true)] + Trace(n + 1, f, fates)
  {
    assert Passes(n, f) == [Executed(STEPS[n], true)] + Passes(n + 1, f);
  }

  lemma TouchesOn(s: State, s2: State, s': State, m: Manifest, p: Progress, e: Executed, q: Progress,
          trace: seq<Executed>)
    requires s2 == Note(s, m.tenant, e).(states := s.states[m.tenant := q])
    requires Touches(s2, s', m, p, trace)
    ensures Touches(s, s', m, p, [e] + trace)
  {
    assert LogOf(s2, m.tenant) == LogOf(s, m.tenant) + [e];
  }

  function AfterStep(s: State, m: Manifest, p: Progress, n: nat): State
    requires n < LAST
  {
    Note(s, m.tenant, Executed(STEPS[n], true)).(states := s.states[m.tenant := p.(completed := STEPS[..n + 1])])
  }

  lemma RunOnExactly(s: State, m: Manifest, p: Progress, n: nat, fates: Fates)
    requires Stands(s, m, p, n) && n < LAST && FateOf(fates, STEPS[n]) == Succeeds
    requires var f := FirstStop(n + 1, fates);
             Touches(AfterStep(s, m, p, n), RunSteps(AfterStep(s, m, p, n), m, STEPS[..n + 1], n + 1, fates).0, m,
                     Recorded(p.(completed := STEPS[..n + 1]), f, fates), Trace(n + 1, f, fates))
             && RunSteps(AfterStep(s, m, p, n), m, STEPS[..n + 1], n + 1, fates).1 == Replied(p.(completed := STEPS[..n + 1]), f, fates)
    ensures var f := FirstStop(n, fates);
            Touches(s, RunSteps(s, m, STEPS[..n], n, fates).0, m, Recorded(p, f, fates), Trace(n, f, fates))
            && RunSteps(s, m, STEPS[..n], n, fates).1 == Replied(p, f, fates)
  {
    StepExactly(s, m, p, n, fates);
    var f, p1 := FirstStop(n, fates), p.(completed := STEPS[..n + 1]);
    TraceFrom(n, f, fates);
    assert Recorded(p1, f, fates) == Recorded(p, f, fates);
    TouchesOn(s, AfterStep(s, m, p, n), RunSteps(AfterStep(s, m, p, n), m, STEPS[..n + 1], n + 1, fates).0, m,
              Recorded(p, f, fates), Executed(STEPS[n], true), p1, Trace(n + 1, f, fates));
  }

  lemma {:induction false} RunExactly(s: State, m: Manifest, p: Progress, n: nat, fates: Fates)
    requires Stands(s, m, p, n)
    ensures var f := FirstStop(n, fates);
            Touches(s, RunSteps(s, m, STEPS[..n], n, fates).0, m, Recorded(p, f, fates), Trace(n, f, fates))
            && RunSteps(s, m, STEPS[..n], n, fates).1 == Replied(p, f, fates)
    decreases LAST - n
  {
    if n == LAST {
      NotYetCompleted(n);
      FinishExactly(s, m, p, fates);
    } else if FateOf(fates, STEPS[n]) != Succeeds {
      StopExactly(s, m, p, n, fates);
    } else {
      StepExactly(s, m, p, n, fates);
      RunExactly(AfterStep(s, m, p, n), m, p.(completed := STEPS[..n + 1]), n + 1, fates);
      RunOnExactly(s, m, p, n, fates);
    }
  }

  // How many steps a call finds completed, once it has recorded its start.
  function Found(s: State, m: Manifest): nat {
    if m.tenant in s.states then |s.states[m.tenant].completed| else 1
  }

  function Started(s: State, m: Manifest): Progress {
    if m.tenant in s.states then
      s.states[m.tenant].(status := InProgress, failedStep := None, failureCode := None, attempt := s.states[m.tenant].attempt + 1)
    else Progress(m.fingerprint, m.names, InProgress, [RecordControlState], None, None, 1)
  }

  predicate Refused(s: State, m: Manifest) {
    m.tenant in s.states && s.states[m.tenant].fingerprint != m.fingerprint
  }

  lemma PendingIsNotNoop(p: Progress)
    requires ProgressFits(p) && |p.completed| < |STEPS|
    ensures IsValidPrefix(p) && p.status != Active && !IsNoop(p)
  {
    ActivateIsLast(p.completed);
    assert STEPS[LAST] !in p.completed;
  }

  lemma StartExactly(s: State, m: Manifest)
    requires StatesFit(s.states) && !Refused(s, m) && Found(s, m) < |STEPS|
    ensures Start(s.states, m) == Some(s.states[m.tenant := Started(s, m)])
    ensures m.tenant in s.states ==> IsValidPrefix(s.states[m.tenant]) && !IsNoop(s.states[m.tenant])
    ensures 1 <= Found(s, m) && Started(s, m).completed == STEPS[..Found(s, m)] && Started(s, m).status == InProgress
  {
    if m.tenant in s.states {
      assert ProgressFits(s.states[m.tenant]);
      PendingIsNotNoop(s.states[m.tenant]);
    } else {
      assert [RecordControlState] == STEPS[..1];
    }
  }

  // A call that finds steps to do starts, and runs them from the first.
  lemma ApplyStarts(s: State, m: Manifest, fates: Fates)
    requires StatesFit(s.states) && !Refused(s, m) && Found(s, m) < |STEPS|
    ensures var n, p := Found(s, m), Started(s, m);
            var s1 := s.(states := s.states[m.tenant := p]);
            1 <= n && Stands(s1, m, p, n) && Apply(s, m, fates) == RunSteps(s1, m, STEPS[..n], 0, fates)
  {
    StartExactly(s, m);
    assert Started(s, m).completed[..1] == [RecordControlState];
  }

  lemma ApplyPending(s: State, m: Manifest, fates: Fates)
    requires StatesFit(s.states) && !Refused(s, m) && Found(s, m) < |STEPS|
    ensures var n := Found(s, m);
            1 <= n && var f := FirstStop(n, fates);
            Touches(s, Apply(s, m, fates).0, m, Recorded(Started(s, m), f, fates), Trace(n, f, fates))
            && Apply(s, m, fates).1 == Replied(Started(s, m), f, fates)
  {
    var n, p := Found(s, m), Started(s, m);
    var s1 := s.(states := s.states[m.tenant := p]);
    ApplyStarts(s, m, fates);
    SkipCompleted(s1, m, n, 0, fates);
    RunExactly(s1, m, p, n, fates);
  }

  // A changed manifest is refused and a finished one needs nothing: neither changes anything.
  // Otherwise the call makes exactly the adapter calls of the missing steps up to the first that
  // fails or kills it, and records exactly the steps that went through.
  lemma ApplyExactly(s: State, m: Manifest, fates: Fates)
    requires StatesFit(s.states)
    ensures Refused(s, m) ==> Apply(s, m, fates) == (s, Conflict)
    ensures !Refused(s, m) && Found(s, m) == |STEPS| ==> Apply(s, m, fates) == (s, Provisioned(s.states[m.tenant]))
    ensures 1 <= Found(s, m) <= |STEPS|
    ensures !Refused(s, m) && Found(s, m) < |STEPS| ==>
              var n := Found(s, m);
              var f := FirstStop(n, fates);
              && Touches(s, Apply(s, m, fates).0, m, Recorded(Started(s, m), f, fates), Trace(n, f, fates))
              && Apply(s, m, fates).1 == Replied(Started(s, m), f, fates)
  {
    if m.tenant in s.states {
      assert ProgressFits(s.states[m.tenant]);
    }
    if !Refused(s, m) && Found(s, m) < |STEPS| {
      ApplyPending(s, m, fates);
    } else if !Refused(s, m) {
      FullIsNoop(s.states[m.tenant]);
    }
  }

  lemma FullIsNoop(p: Progress)
    requires p.completed <= STEPS && |p.completed| == |STEPS|
    ensures IsNoop(p)
  {
    assert p.completed == STEPS;
  }

  // ---------------------------------------------------------------------------
  // Runs of calls
  // ---------------------------------------------------------------------------

  datatype Call = Call(m: Manifest, fates: Fates)

  function Run(s: State, calls: seq<Call>): State
    decreases |calls|
  {
    if calls == [] then s else Run(Apply(s, calls[0].m, calls[0].fates).0, calls[1..])
  }

  // Every recorded step that has an adapter call had a successful one.
  predicate Evidenced(p: Progress, h: seq<Executed>) {
    forall k | 1 <= k < |p.completed| && k < LAST :: Executed(STEPS[k], true) in h
  }

  predicate TenantFits(s: State, t: string) {
    if t in s.states then ProgressFits(s.states[t]) && Evidenced(s.states[t], LogOf(s, t)) else LogOf(s, t) == []
  }

  ghost predicate Inv(s: State) {
    forall t :: TenantFits(s, t)
  }

  // Steps below `n` are not among the new adapter calls.
  predicate Appends(h: seq<Executed>, h': seq<Executed>, n: nat) {
    && h <= h'
    && forall i, k | |h| <= i < |h'| && 0 <= k < n && k < |STEPS| :: h'[i].step != STEPS[k]
  }

  function Done(s: State, t: string): nat {
    if t in s.states then |s.states[t].completed| else 0
  }

  lemma StepsAreDistinct(i: nat, j: nat)
    requires i < j < |STEPS|
    ensures STEPS[i] != STEPS[j]
  {
  }

  lemma TraceAbove(n: nat, f: nat, fates: Fates, i: nat, k: nat)
    requires k < n <= f <= LAST && i < |Trace(n, f, fates)|
    ensures Trace(n, f, fates)[i].step != STEPS[k]
  {
    StepsAreDistinct(k, n + i);
  }

  lemma TraceEvidences(p: Progress, q: Progress, h: seq<Executed>, n: nat, f: nat, fates: Fates)
    requires 1 <= n <= f <= LAST && Evidenced(p, h) && |p.completed| == n && |q.completed| <= |STEPS|
    requires q.completed == STEPS[..f] || (f == LAST && q.completed == STEPS)
    ensures Evidenced(q, h + Trace(n, f, fates))
  {
    forall k | 1 <= k < |q.completed| && k < LAST ensures Executed(STEPS[k], true) in h + Trace(n, f, fates) {
      if k >= n {
        assert Trace(n, f, fates)[k - n] == Executed(STEPS[k], true);
      }
    }
  }

  lemma RecordedFits(p: Progress, f: nat, fates: Fates)
    requires p.status == InProgress && p.failedStep.None? && p.attempt >= 1 && 1 <= f <= LAST
    ensures ProgressFits(Recorded(p, f, fates))
  {
    ActivateIsLast(STEPS[..f]);
    ActivateIsLast(STEPS);
  }

  lemma TraceAppends(h: seq<Executed>, n: nat, f: nat, fates: Fates)
    requires n <= f <= LAST
    ensures Appends(h, h + Trace(n, f, fates), n)
  {
    var h' := h + Trace(n, f, fates);
    forall i, k | |h| <= i < |h'| && 0 <= k < n && k < |STEPS| ensures h'[i].step != STEPS[k] {
      TraceAbove(n, f, fates, i - |h|, k);
    }
  }

  lemma InvFits(s: State)
    requires Inv(s)
    ensures StatesFit(s.states)
  {
    forall t | t in s.states ensures ProgressFits(s.states[t]) { assert TenantFits(s, t); }
  }

  // What one call leaves of its tenant.
  predicate TenantAdvances(s: State, s': State, t: string) {
    TenantFits(s', t) && Appends(LogOf(s, t), LogOf(s', t), Done(s, t)) && Done(s, t) <= Done(s', t)
  }

  lemma PendingTenant(s: State, m: Manifest, fates: Fates)
    requires Inv(s) && !Refused(s, m) && Found(s, m) < |STEPS|
    ensures TenantAdvances(s, Apply(s, m, fates).0, m.tenant)
  {
    assert TenantFits(s, m.tenant);
    InvFits(s);
    ApplyExactly(s, m, fates);
    var n, p := Found(s, m), Started(s, m);
    var f := FirstStop(n, fates);
    RecordedFits(p, f, fates);
    TraceEvidences(p, Recorded(p, f, fates), LogOf(s, m.tenant), n, f, fates);
    TraceAppends(LogOf(s, m.tenant), n, f, fates);
  }

  lemma ApplyTenant(s: State, m: Manifest, fates: Fates)
    requires Inv(s)
    ensures TenantAdvances(s, Apply(s, m, fates).0, m.tenant)
  {
    assert TenantFits(s, m.tenant);
    InvFits(s);
    if !Refused(s, m) && Found(s, m) < |STEPS| {
      PendingTenant(s, m, fates);
    } else {
      ApplyExactly(s, m, fates);
    }
  }

  lemma ApplyElsewhere(s: State, m: Manifest, fates: Fates, t: string)
    requires Inv(s) && t != m.tenant
    ensures var s' := Apply(s, m, fates).0;
            LogOf(s', t) == LogOf(s, t) && (t in s'.states <==> t in s.states) && (t in s.states ==> s'.states[t] == s.states[t])
  {
    InvFits(s);
    ApplyExactly(s, m, fates);
    var s' := Apply(s, m, fates).0;
    assert t in s'.log <==> t in s'.log - {m.tenant};
    assert t in s.log <==> t in s.log - {m.tenant};
  }

  lemma ApplyKeeps(s: State, m: Manifest, fates: Fates)
    requires Inv(s)
    ensures Inv(Apply(s, m, fates).0)
  {
    var s' := Apply(s, m, fates).0;
    forall t ensures TenantFits(s', t) {
      assert TenantFits(s, t);
      if t == m.tenant { ApplyTenant(s, m, fates); } else { ApplyElsewhere(s, m, fates, t); }
    }
  }

  lemma {:induction false} RunKeeps(s: State, calls: seq<Call>)
    requires Inv(s)
    ensures Inv(Run(s, calls))
    decreases |calls|
  {
    if calls != [] {
      ApplyKeeps(s, calls[0].m, calls[0].fates);
      RunKeeps(Apply(s, calls[0].m, calls[0].fates).0, calls[1..]);
    }
  }

  // However calls fail and die: completed steps are a prefix of the ten, the tenant is active
  // exactly when all ten are, and then every step - the three verifications among them - had
  // an adapter call that succeeded.
  lemma ActiveExactly(calls: seq<Call>, t: string)
    requires t in Run(EMPTY, calls).states
    ensures var p := Run(EMPTY, calls).states[t];
            && p.completed != [] && p.completed <= STEPS && (p.status == Active <==> p.completed == STEPS)
            && (p.status == Failed ==> p.failedStep == NextStep(p.completed))
            && p.completed <= [RecordControlState, WriteSecrets, StartNeo4j, CreateTenantDatabase, MigratePostgres,
                               MigrateNeo4j, VerifyNeo4jHealth, VerifyRouting, VerifyIsolation, Activate]
            && (p.status == Active <==> |p.completed| == 10)
    ensures var s := Run(EMPTY, calls);
            s.states[t].status == Active ==> forall k | 1 <= k < LAST :: Executed(STEPS[k], true) in LogOf(s, t)
  {
    RunKeeps(EMPTY, calls);
    var s := Run(EMPTY, calls);
    assert TenantFits(s, t);
    ActivateIsLast(s.states[t].completed);
  }

  lemma AppendsOn(h: seq<Executed>, h': seq<Executed>, h'': seq<Executed>, n: nat, n': nat)
    requires Appends(h, h', n) && Appends(h', h'', n') && n <= n'
    ensures Appends(h, h'', n)
  {
    forall i, k | |h| <= i < |h''| && 0 <= k < n && k < |STEPS| ensures h''[i].step != STEPS[k] {
      if i < |h'| { assert h''[i] == h'[i]; }
    }
  }

  // A recorded step is never executed again by any later call.
  lemma {:induction false} RecordedStepNeverRunsAgain(s: State, calls: seq<Call>, t: string)
    requires Inv(s)
    ensures Appends(LogOf(s, t), LogOf(Run(s, calls), t), Done(s, t)) && Done(s, t) <= Done(Run(s, calls), t)
    decreases |calls|
  {
    if calls != [] {
      var m, fates := calls[0].m, calls[0].fates;
      var s1 := Apply(s, m, fates).0;
      if t == m.tenant { ApplyTenant(s, m, fates); } else { ApplyElsewhere(s, m, fates, t); }
      ApplyKeeps(s, m, fates);
      RecordedStepNeverRunsAgain(s1, calls[1..], t);
      AppendsOn(LogOf(s, t), LogOf(s1, t), LogOf(Run(s1, calls[1..]), t), Done(s, t), Done(s1, t));
    }
  }
}
