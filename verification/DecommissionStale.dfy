// A decommission request that a stale create brings back to life: how it comes about, and what it
// does to the rule that a cancelled request was never destroyed.
module DecommissionStale {
  import opened Common
  import opened Decommission
  import opened DecommissionRace
  import opened DecommissionSound

  // ---------------------------------------------------------------------------
  // Cancelled requests
  // ---------------------------------------------------------------------------

  lemma CancelledEndsIt(policy: Policy, h: seq<Mark>, n: nat)
    requires Chain(policy, h) && n < |h| && h[n].Saved? && h[n].r.phase == Cancelled
    ensures n == |h| - 1 && !EverFinalizing(h)
  {
    assert n + 1 < |h| ==> Link(policy, h, n + 1);
    forall i | 0 <= i < |h| && h[i].Saved? ensures h[i].r.phase != Finalizing {
      if i < n { ChainOrder(policy, h, i, n); }
    }
  }

  predicate Untouched(w: World, id: string) {
    forall a | a in DESTRUCTION :: (id, a) !in w.ran
  }

  // A request is revived after its destruction.
  lemma {:induction false} RevivedWasDestroyed(policy: Policy, w: World, steps: seq<Step>, id: string)
    requires AllSound(policy, w) && id in Revived(policy, w, steps)
    ensures forall a | a in DESTRUCTION :: (id, a) in Run(policy, w, steps).ran
    decreases |steps|
  {
    var w1 := Apply(policy, w, steps[0]);
    ApplySound(policy, w, steps[0]);
    RunSound(policy, w1, steps[1..]);
    if StaleCreate(w, steps[0]) && w.callers[steps[0].c].draft.id == id {
      TombstoneIsSound(policy, w, id);
    } else {
      RevivedWasDestroyed(policy, w1, steps[1..], id);
    }
  }

  lemma TombstoneIsSound(policy: Policy, w: World, id: string)
    requires AllSound(policy, w) && id in w.tombstones
    ensures forall a | a in DESTRUCTION :: (id, a) in w.ran
  {
    var h := HistoryOf(w, id);
    assert HistorySound(policy, w, id);
    var i :| 0 <= i < |h| && h[i] == Entombed(w.tombstones[id]);
    assert MarkSound(policy, w, h, i) && MarkSound(policy, w, h, i - 1);
  }

  lemma CancelledIsUntouched(policy: Policy, w: World, id: string, revived: set<string>)
    requires Inv(policy, w, revived) && id !in revived && id in w.records && w.records[id].phase == Cancelled
    ensures Untouched(w, id) && id !in w.tombstones
  {
    assert RequestFits(policy, w, id);
    var h := HistoryOf(w, id);
    CancelledEndsIt(policy, h, |h| - 1);
  }

  lemma CancelledStep(policy: Policy, w: World, st: Step, id: string, revived: set<string>)
    requires Inv(policy, w, revived) && id !in revived && id in w.records && w.records[id].phase == Cancelled
    requires Inv(policy, Apply(policy, w, st), revived)
    ensures id in Apply(policy, w, st).records && Apply(policy, w, st).records[id] == w.records[id]
  {
    var w' := Apply(policy, w, st);
    assert RequestFits(policy, w, id) && RequestFits(policy, w', id);
    StepAppends(policy, w, st, id);
    var h, h' := HistoryOf(w, id), HistoryOf(w', id);
    assert h'[|h| - 1] == h[|h| - 1];
    CancelledEndsIt(policy, h', |h| - 1);
  }

  // A cancelled request that was never revived never will be, and does not change any more.
  lemma {:induction false} CancelledStays(policy: Policy, w: World, steps: seq<Step>, id: string, revived: set<string>)
    requires Inv(policy, w, revived) && id !in revived && id in w.records && w.records[id].phase == Cancelled
    ensures id !in Revived(policy, w, steps)
    ensures var w' := Run(policy, w, steps); id in w'.records && w'.records[id] == w.records[id] && Untouched(w', id)
    decreases |steps|
  {
    CancelledIsUntouched(policy, w, id, revived);
    if steps != [] {
      var now := if StaleCreate(w, steps[0]) then {w.callers[steps[0].c].draft.id} else {};
      MoreRevived(policy, w, revived, now);
      ApplyKeeps(policy, w, steps[0], revived + now);
      CancelledStep(policy, w, steps[0], id, revived + now);
      CancelledStays(policy, Apply(policy, w, steps[0]), steps[1..], id, revived + now);
    }
  }

  // However calls interleave: no destruction action was attempted for a request that is cancelled
  // exactly if no request call created it after its tombstone was written; and then none ever will
  // be, and the request stays as it is.
  lemma CancelledIsNeverDestroyedExactly(policy: Policy, before: seq<Step>, after: seq<Step>, id: string)
    requires var w := Run(policy, START, before); id in w.records && w.records[id].phase == Cancelled
    ensures Untouched(Run(policy, START, before), id) <==> id !in Revived(policy, START, before)
    ensures var w, w' := Run(policy, START, before), Run(policy, Run(policy, START, before), after);
            Untouched(w, id) ==> Untouched(w', id) && id in w'.records && w'.records[id] == w.records[id]
  {
    var w := Run(policy, START, before);
    RunFits(policy, before);
    if id in Revived(policy, START, before) {
      StartSound(policy);
      RevivedWasDestroyed(policy, START, before, id);
      assert DESTRUCTION[0] in DESTRUCTION;
    } else {
      CancelledIsUntouched(policy, w, id, Revived(policy, START, before));
      CancelledStays(policy, w, after, id, Revived(policy, START, before));
    }
  }

  // ---------------------------------------------------------------------------
  // A stale create does happen
  // ---------------------------------------------------------------------------

  lemma {:induction false} RunJoin(policy: Policy, w: World, a: seq<Step>, b: seq<Step>)
    ensures Run(policy, w, a + b) == Run(policy, Run(policy, w, a), b)
    decreases |a|
  {
    if a == [] {
      assert a + b == b;
    } else {
      assert (a + b)[0] == a[0] && (a + b)[1..] == a[1..] + b;
      RunJoin(policy, Apply(policy, w, a[0]), a[1..], b);
    }
  }

  lemma RunOne(policy: Policy, w: World, a: seq<Step>, st: Step)
    ensures Run(policy, w, a + [st]) == Apply(policy, Run(policy, w, a), st)
  {
    RunJoin(policy, w, a, [st]);
    assert [st][1..] == [];
    var w1 := Run(policy, w, a);
    assert Run(policy, w1, [st]) == Run(policy, Apply(policy, w1, st), []);
  }

  predicate SameButSteps(r: Record, q: Record) {
    q.id == r.id && q.phase == r.phase && q.resources == r.resources && q.requestedBy == r.requestedBy
    && q.requestedAt == r.requestedAt && q.confirmedBy == r.confirmedBy && q.graceEndsAt == r.graceEndsAt
  }

  predicate AtWork(w: World, c: Caller, r: Record, part: Part, at: Instant) {
    c in w.callers && w.callers[c] == Stepping(r, part, at) && r.id in w.records && w.records[r.id] == r
  }

  // A caller runs one step and saves it.
  lemma DriveOnce(policy: Policy, w: World, c: Caller, r: Record, part: Part, at: Instant, k: nat)
    requires AtWork(w, c, r, part, at) && k < |Order(part)| && Completed(r, part) == Order(part)[..k]
    ensures var q := Bumped(Complete(r, part, Order(part)[k]));
            var w2 := Apply(policy, Apply(policy, w, Advance(c, true)), Advance(c, true));
            && w2.callers == w.callers[c := Stepping(q, part, at)] && w2.records == w.records[r.id := q]
            && w2.tombstones == w.tombstones
  {
    NextStepFrom(part, Completed(r, part), 0);
    var a := Order(part)[k];
    var w1 := Apply(policy, w, Advance(c, true));
    assert w1.callers == w.callers[c := SavingStep(Complete(r, part, a), part, at)] && w1.records == w.records;
  }

  lemma RunTwo(policy: Policy, w: World, st: Step, rest: seq<Step>)
    ensures Run(policy, w, [st, st] + rest) == Run(policy, Apply(policy, Apply(policy, w, st), st), rest)
  {
    var steps := [st, st] + rest;
    assert steps[1..] == [st] + rest && ([st] + rest)[1..] == rest;
    assert Run(policy, Apply(policy, w, st), [st] + rest) == Run(policy, Apply(policy, Apply(policy, w, st), st), rest);
  }

  // From `w` to `w'` caller `c` did nothing but record the rest of its steps, in record `r'`.
  predicate Driven(w: World, w': World, c: Caller, r: Record, r': Record, part: Part, at: Instant) {
    && SameButSteps(r, r') && Completed(r', part) == Order(part)
    && (part == Suspend ==> r'.destruction == r.destruction)
    && w'.callers == w.callers[c := Stepping(r', part, at)]
    && w'.records == w.records[r.id := r'] && w'.tombstones == w.tombstones
  }

  lemma DrivenOn(w: World, w2: World, w': World, c: Caller, r: Record, q: Record, r': Record, part: Part, at: Instant)
    requires Driven(w2, w', c, q, r', part, at) && SameButSteps(r, q)
    requires part == Suspend ==> q.destruction == r.destruction
    requires w2.callers == w.callers[c := Stepping(q, part, at)] && w2.records == w.records[r.id := q]
    requires w2.tombstones == w.tombstones
    ensures Driven(w, w', c, r, r', part, at)
  {
  }

  lemma DrivenAlready(w: World, c: Caller, r: Record, part: Part, at: Instant)
    requires AtWork(w, c, r, part, at) && Completed(r, part) == Order(part)
    ensures Driven(w, w, c, r, r, part, at)
  {
    assert w.records[r.id := r] == w.records;
    assert w.callers[c := Stepping(r, part, at)] == w.callers;
  }

  lemma CompletedOne(r: Record, part: Part, k: nat)
    requires k < |Order(part)| && Completed(r, part) == Order(part)[..k]
    ensures var q := Bumped(Complete(r, part, Order(part)[k]));
            Completed(q, part) == Order(part)[..k + 1] && SameButSteps(r, q) && (part == Suspend ==> q.destruction == r.destruction)
  {
  }

  // Left alone, a caller gets through its steps.
  lemma {:induction false} Drive(policy: Policy, w: World, c: Caller, r: Record, part: Part, at: Instant, k: nat)
    returns (steps: seq<Step>, r': Record)
    requires AtWork(w, c, r, part, at) && k <= |Order(part)| && Completed(r, part) == Order(part)[..k]
    ensures Driven(w, Run(policy, w, steps), c, r, r', part, at)
    decreases |Order(part)| - k
  {
    if k == |Order(part)| {
      steps, r' := [], r;
      DrivenAlready(w, c, r, part, at);
    } else {
      DriveOnce(policy, w, c, r, part, at, k);
      CompletedOne(r, part, k);
      var w2 := Apply(policy, Apply(policy, w, Advance(c, true)), Advance(c, true));
      var q := Bumped(Complete(r, part, Order(part)[k]));
      var rest;
      rest, r' := Drive(policy, w2, c, q, part, at, k + 1);
      steps := [Advance(c, true), Advance(c, true)] + rest;
      RunTwo(policy, w, Advance(c, true), rest);
      DrivenOn(w, w2, Run(policy, w2, rest), c, r, q, r', part, at);
    }
  }

  const STALE_POLICY := Policy(30, 10)
  const STALE_EVIDENCE := Evidence(true, "b", 0, 0, true, true, false)
  const STALE_DRAFT := NewRecord("r", Resources("t", []), "x", "why", 0, "p")

  lemma TwoCreators() returns (steps: seq<Step>)
    ensures var w := Run(STALE_POLICY, START, steps);
            && w.callers == map[1 := Creating(STALE_DRAFT), 2 := Stepping(Bumped(STALE_DRAFT), Suspend, 0)]
            && w.records == map["r" := Bumped(STALE_DRAFT)] && w.tombstones == map[]
  {
    var p, d := STALE_POLICY, STALE_DRAFT;
    var w1 := Apply(p, START, AskRequest(1, d));
    var w2 := Apply(p, w1, Advance(1, true));
    var w3 := Apply(p, w2, Advance(1, true));
    assert w3.callers == map[1 := Creating(d)];
    var w4 := Apply(p, w3, AskRequest(2, d));
    var w5 := Apply(p, w4, Advance(2, true));
    var w6 := Apply(p, w5, Advance(2, true));
    var w7 := Apply(p, w6, Advance(2, true));
    assert w7.callers == map[1 := Creating(d), 2 := Stepping(Bumped(d), Suspend, 0)];
    steps := [AskRequest(1, d)];
    RunOne(p, START, [], steps[0]);
    assert [] + steps == steps;
    RunOne(p, START, steps, Advance(1, true));
    steps := steps + [Advance(1, true)];
    RunOne(p, START, steps, Advance(1, true));
    steps := steps + [Advance(1, true)];
    RunOne(p, START, steps, AskRequest(2, d));
    steps := steps + [AskRequest(2, d)];
    RunOne(p, START, steps, Advance(2, true));
    steps := steps + [Advance(2, true)];
    RunOne(p, START, steps, Advance(2, true));
    steps := steps + [Advance(2, true)];
    RunOne(p, START, steps, Advance(2, true));
    steps := steps + [Advance(2, true)];
  }

  lemma RunThree(policy: Policy, w: World, steps: seq<Step>, a: Step, b: Step, c: Step)
    ensures Run(policy, w, steps + [a] + [b] + [c])
         == Apply(policy, Apply(policy, Apply(policy, Run(policy, w, steps), a), b), c)
  {
    RunOne(policy, w, steps, a);
    RunOne(policy, w, steps + [a], b);
    RunOne(policy, w, steps + [a] + [b], c);
  }

  // Caller 2, having created the record, suspends, and the request is confirmed and admitted.
  lemma FinishSuspension(w: World, r: Record)
    requires w.callers == map[1 := Creating(STALE_DRAFT), 2 := Stepping(r, Suspend, 0)]
    requires w.records == map["r" := r] && w.tombstones == map[]
    requires SameButSteps(Bumped(STALE_DRAFT), r) && r.suspension == SUSPENSION && r.destruction == []
    ensures var w2 := Apply(STALE_POLICY, Apply(STALE_POLICY, w, Advance(2, true)), Advance(2, true));
            var q := Bumped(r.(phase := Suspended, lastFailed := None));
            w2.callers == map[1 := Creating(STALE_DRAFT)] && w2.records == map["r" := q] && w2.tombstones == map[]
  {
    AllRecorded(Suspend);
    var w1 := Apply(STALE_POLICY, w, Advance(2, true));
    assert w1.callers == map[1 := Creating(STALE_DRAFT), 2 := SavingLast(r.(phase := Suspended, lastFailed := None))];
  }

  function ConfirmedStale(r: Record): Record {
    Bumped(r.(phase := Grace, confirmedBy := Some("y"), confirmedAt := Some(1), graceEndsAt := Some(31),
              evidence := Some(STALE_EVIDENCE), lastFailed := None))
  }

  lemma ConfirmStale(w: World, r: Record)
    requires w.callers == map[1 := Creating(STALE_DRAFT)] && w.records == map["r" := r] && w.tombstones == map[]
    requires r.id == "r" && r.resources.tenant == "t" && r.requestedBy == "x" && r.requestedAt == 0 && r.phase == Suspended
    ensures var ask := AskConfirm(2, "r", "t", "y", STALE_EVIDENCE, 1, true);
            var w2 := Apply(STALE_POLICY, Apply(STALE_POLICY, w, ask), Advance(2, true));
            w2.callers == map[1 := Creating(STALE_DRAFT)] && w2.records == map["r" := ConfirmedStale(r)] && w2.tombstones == map[]
  {
    var w1 := Apply(STALE_POLICY, w, AskConfirm(2, "r", "t", "y", STALE_EVIDENCE, 1, true));
    assert w1.callers[2].SavingLast?;
  }

  lemma AdmitStale(w: World, r: Record)
    requires w.callers == map[1 := Creating(STALE_DRAFT)] && w.records == map["r" := r] && w.tombstones == map[]
    requires r.id == "r" && r.resources.tenant == "t" && r.phase == Grace && r.graceEndsAt == Some(31)
    ensures var w2 := Apply(STALE_POLICY, Apply(STALE_POLICY, w, AskFinalize(2, "r", "t", 31)), Advance(2, true));
            var w3 := Apply(STALE_POLICY, w2, Advance(2, true));
            var q := Bumped(r.(phase := Finalizing, lastFailed := None));
            w3.callers == map[1 := Creating(STALE_DRAFT), 2 := Stepping(q, Destroy, 31)] && w3.records == map["r" := q] && w3.tombstones == map[]
  {
    var w1 := Apply(STALE_POLICY, w, AskFinalize(2, "r", "t", 31));
    assert w1.callers == map[1 := Creating(STALE_DRAFT), 2 := FinalizeAsked("r", "t", 31)];
    var w2 := Apply(STALE_POLICY, w1, Advance(2, true));
    assert w2.callers == map[1 := Creating(STALE_DRAFT), 2 := Admitting(r.(phase := Finalizing, lastFailed := None), 31)];
  }

  lemma BuryThenCreate(w: World, r: Record)
    requires w.callers == map[1 := Creating(STALE_DRAFT), 2 := Stepping(r, Destroy, 31)]
    requires w.records == map["r" := r] && w.tombstones == map[] && r.id == "r"
    requires r.phase == Finalizing && r.destruction == DESTRUCTION && r.confirmedBy.Some?
    ensures var w2 := Apply(STALE_POLICY, Apply(STALE_POLICY, w, Advance(2, true)), Advance(1, true));
            RevivedBy(w2, Bumped(STALE_DRAFT)) && "r" in w2.tombstones
  {
    AllRecorded(Destroy);
    var w1 := Apply(STALE_POLICY, w, Advance(2, true));
    assert w1.callers == map[1 := Creating(STALE_DRAFT)] && w1.records == map[];
  }

  // Caller 1 waits with its draft; nobody else is inside a call.
  predicate Waiting(w: World, r: Record) {
    && w.callers == map[1 := Creating(STALE_DRAFT)] && w.records == map["r" := r] && w.tombstones == map[]
    && r.id == "r" && r.resources.tenant == "t" && r.requestedBy == "x" && r.requestedAt == 0 && r.destruction == []
  }

  lemma StaleSuspended() returns (steps: seq<Step>, r: Record)
    ensures Waiting(Run(STALE_POLICY, START, steps), r) && r.phase == Suspended
  {
    var first := TwoCreators();
    var w := Run(STALE_POLICY, START, first);
    assert Completed(Bumped(STALE_DRAFT), Suspend) == Order(Suspend)[..0];
    var more, q := Drive(STALE_POLICY, w, 2, Bumped(STALE_DRAFT), Suspend, 0, 0);
    RunJoin(STALE_POLICY, START, first, more);
    var w1 := Run(STALE_POLICY, START, first + more);
    assert w1.callers == map[1 := Creating(STALE_DRAFT), 2 := Stepping(q, Suspend, 0)];
    FinishSuspension(w1, q);
    RunOne(STALE_POLICY, START, first + more, Advance(2, true));
    RunOne(STALE_POLICY, START, first + more + [Advance(2, true)], Advance(2, true));
    steps := first + more + [Advance(2, true)] + [Advance(2, true)];
    r := Bumped(q.(phase := Suspended, lastFailed := None));
  }

  lemma StaleConfirmed() returns (steps: seq<Step>, r: Record)
    ensures Waiting(Run(STALE_POLICY, START, steps), r)
    ensures r.phase == Grace && r.graceEndsAt == Some(31) && r.confirmedBy == Some("y")
  {
    var before, q := StaleSuspended();
    var ask := AskConfirm(2, "r", "t", "y", STALE_EVIDENCE, 1, true);
    ConfirmStale(Run(STALE_POLICY, START, before), q);
    RunOne(STALE_POLICY, START, before, ask);
    RunOne(STALE_POLICY, START, before + [ask], Advance(2, true));
    steps, r := before + [ask] + [Advance(2, true)], ConfirmedStale(q);
  }

  lemma StaleDestroyed() returns (steps: seq<Step>, r: Record)
    ensures var w := Run(STALE_POLICY, START, steps);
            w.callers == map[1 := Creating(STALE_DRAFT), 2 := Stepping(r, Destroy, 31)] && w.records == map["r" := r] && w.tombstones == map[]
    ensures r.id == "r" && r.phase == Finalizing && r.destruction == DESTRUCTION && r.confirmedBy.Some?
  {
    var before, q := StaleConfirmed();
    var q1 := Bumped(q.(phase := Finalizing, lastFailed := None));
    AdmitStale(Run(STALE_POLICY, START, before), q);
    RunThree(STALE_POLICY, START, before, AskFinalize(2, "r", "t", 31), Advance(2, true), Advance(2, true));
    var middle := before + [AskFinalize(2, "r", "t", 31)] + [Advance(2, true)] + [Advance(2, true)];
    var w := Run(STALE_POLICY, START, middle);
    assert q1.destruction == Order(Destroy)[..0];
    var more;
    more, r := Drive(STALE_POLICY, w, 2, q1, Destroy, 31, 0);
    RunJoin(STALE_POLICY, START, middle, more);
    steps := middle + more;
    assert Run(STALE_POLICY, START, steps).callers == map[1 := Creating(STALE_DRAFT), 2 := Stepping(r, Destroy, 31)];
  }

  // The tombstone is written, and caller 1 makes its create.
  lemma StaleRevived() returns (steps: seq<Step>)
    ensures RevivedBy(Run(STALE_POLICY, START, steps), Bumped(STALE_DRAFT))
    ensures "r" in Run(STALE_POLICY, START, steps).tombstones && "r" in Revived(STALE_POLICY, START, steps)
  {
    var before, r := StaleDestroyed();
    BuryThenCreate(Run(STALE_POLICY, START, before), r);
    RunOne(STALE_POLICY, START, before, Advance(2, true));
    RunOne(STALE_POLICY, START, before + [Advance(2, true)], Advance(1, true));
    steps := before + [Advance(2, true)] + [Advance(1, true)];
    BothIsRevived(STALE_POLICY, steps, "r");
  }

  lemma BothIsRevived(policy: Policy, steps: seq<Step>, id: string)
    requires id in Run(policy, START, steps).records && id in Run(policy, START, steps).tombstones
    ensures id in Revived(policy, START, steps)
  {
    RunFits(policy, steps);
    assert id !in Revived(policy, START, steps) ==> RequestFits(policy, Run(policy, START, steps), id);
  }

  // A request call that was held up between its checks and its first save brings a request back
  // to life after it was finalized.
  lemma StaleCreateHappens() returns (steps: seq<Step>)
    ensures var w := Run(STALE_POLICY, START, steps);
            "r" in w.records && w.records["r"].phase == Suspending && "r" in w.tombstones
    ensures "r" in Revived(STALE_POLICY, START, steps)
  {
    steps := StaleRevived();
  }

  // Caller 1 is suspending the revived request, and nobody else is inside a call.
  predicate RevivedBy(w: World, r: Record) {
    w.callers == map[1 := Stepping(r, Suspend, 0)] && w.records == map["r" := r]
  }

  lemma SuspendAgain(w: World, r: Record)
    requires RevivedBy(w, r) && r.id == "r" && r.phase == Suspending && r.suspension == SUSPENSION
    ensures var w2 := Apply(STALE_POLICY, Apply(STALE_POLICY, w, Advance(1, true)), Advance(1, true));
            w2.callers == map[] && w2.records == map["r" := Bumped(r.(phase := Suspended, lastFailed := None))]
  {
    AllRecorded(Suspend);
    var p := r.(phase := Suspended, lastFailed := None);
    var w1 := Apply(STALE_POLICY, w, Advance(1, true));
    assert w1.callers == map[1 := SavingLast(p)] && w1.records == w.records;
  }

  lemma ConfirmAgain(w: World, r: Record)
    requires w.callers == map[] && w.records == map["r" := r]
    requires r.id == "r" && r.resources.tenant == "t" && r.requestedBy == "x" && r.requestedAt == 0 && r.phase == Suspended
    ensures var ask := AskConfirm(1, "r", "t", "y", STALE_EVIDENCE, 1, true);
            var w2 := Apply(STALE_POLICY, Apply(STALE_POLICY, w, ask), Advance(1, true));
            w2.callers == map[] && w2.records == map["r" := ConfirmedStale(r)]
  {
    var w1 := Apply(STALE_POLICY, w, AskConfirm(1, "r", "t", "y", STALE_EVIDENCE, 1, true));
    assert w1.callers[1].SavingLast?;
  }

  function CancelledStale(r: Record): Record {
    Bumped(r.(phase := Cancelled, cancelledBy := Some("y"), cancelledAt := Some(2), lastFailed := None))
  }

  lemma CancelAgain(w: World, r: Record)
    requires w.callers == map[] && w.records == map["r" := r]
    requires r.id == "r" && r.resources.tenant == "t" && r.phase == Grace && r.graceEndsAt == Some(31)
    ensures var w3 := Apply(STALE_POLICY, Apply(STALE_POLICY, Apply(STALE_POLICY, w, AskCancel(1, "r", "t", "y", 2)), Advance(1, true)),
                            Advance(1, true));
            w3.records == map["r" := CancelledStale(r)]
  {
    var w1 := Apply(STALE_POLICY, w, AskCancel(1, "r", "t", "y", 2));
    assert w1.callers == map[1 := Reactivating(r, "y", 2)];
    var w2 := Apply(STALE_POLICY, w1, Advance(1, true));
    assert w2.callers[1].SavingLast? && w2.records == w.records;
  }

  // Nobody is inside a call.
  predicate Idle(w: World, r: Record) {
    && w.callers == map[] && w.records == map["r" := r]
    && r.id == "r" && r.resources.tenant == "t" && r.requestedBy == "x" && r.requestedAt == 0
  }

  lemma SuspendedAgain() returns (steps: seq<Step>, r: Record)
    ensures Idle(Run(STALE_POLICY, START, steps), r) && r.phase == Suspended && "r" in Revived(STALE_POLICY, START, steps)
  {
    var before := StaleRevived();
    var w := Run(STALE_POLICY, START, before);
    assert Completed(Bumped(STALE_DRAFT), Suspend) == Order(Suspend)[..0];
    var more, q := Drive(STALE_POLICY, w, 1, Bumped(STALE_DRAFT), Suspend, 0, 0);
    RunJoin(STALE_POLICY, START, before, more);
    var w1 := Run(STALE_POLICY, START, before + more);
    assert RevivedBy(w1, q);
    SuspendAgain(w1, q);
    RunOne(STALE_POLICY, START, before + more, Advance(1, true));
    RunOne(STALE_POLICY, START, before + more + [Advance(1, true)], Advance(1, true));
    steps := before + more + [Advance(1, true)] + [Advance(1, true)];
    r := Bumped(q.(phase := Suspended, lastFailed := None));
    assert steps == before + (more + [Advance(1, true)] + [Advance(1, true)]);
    RevivedFurther(STALE_POLICY, START, before, more + [Advance(1, true)] + [Advance(1, true)]);
  }

  lemma {:induction false} RevivedFurther(policy: Policy, w: World, a: seq<Step>, b: seq<Step>)
    ensures Revived(policy, w, a) <= Revived(policy, w, a + b)
    decreases |a|
  {
    if a != [] {
      assert (a + b)[0] == a[0] && (a + b)[1..] == a[1..] + b;
      RevivedFurther(policy, Apply(policy, w, a[0]), a[1..], b);
    }
  }

  // The revived request is suspended and confirmed once more, and cancelled within its grace
  // period. All its destruction steps were carried out in its first life.
  lemma CancelledThoughDestroyed() returns (steps: seq<Step>)
    ensures var w := Run(STALE_POLICY, START, steps);
            && "r" in w.records && w.records["r"].phase == Cancelled
            && forall a | a in DESTRUCTION :: ("r", a) in w.ran
  {
    var p := STALE_POLICY;
    var before, r := SuspendedAgain();
    var ask, cancel := AskConfirm(1, "r", "t", "y", STALE_EVIDENCE, 1, true), AskCancel(1, "r", "t", "y", 2);
    ConfirmAgain(Run(p, START, before), r);
    RunOne(p, START, before, ask);
    RunOne(p, START, before + [ask], Advance(1, true));
    var middle := before + [ask] + [Advance(1, true)];
    CancelAgain(Run(p, START, middle), ConfirmedStale(r));
    RunThree(p, START, middle, cancel, Advance(1, true), Advance(1, true));
    steps := middle + [cancel] + [Advance(1, true)] + [Advance(1, true)];
    assert steps == before + ([ask] + [Advance(1, true)] + [cancel] + [Advance(1, true)] + [Advance(1, true)]);
    RevivedFurther(p, START, before, [ask] + [Advance(1, true)] + [cancel] + [Advance(1, true)] + [Advance(1, true)]);
    StartSound(p);
    RevivedWasDestroyed(p, START, steps, "r");
  }
}
