// What holds of the decommission service with calls that overlap in every run, stale creates
// included: whatever is saved, and whatever is buried, was earned by those who hold it.
module DecommissionSound {
  import opened Common
  import opened Decommission
  import opened DecommissionRace

  predicate ConfirmedByAnother(policy: Policy, r: Record) {
    && r.confirmedBy.Some? && r.confirmedBy.value != r.requestedBy
    && r.confirmedAt.Some? && r.confirmedAt.value >= r.requestedAt
    && r.evidence.Some? && r.evidence.value.complete && r.evidence.value.integrityVerified
    && r.evidence.value.verifiedAt <= r.confirmedAt.value
    && (r.evidence.value.isBackup ==> 0 <= r.confirmedAt.value - r.evidence.value.createdAt <= policy.backupMaxAge)
    && (!r.evidence.value.isBackup ==> r.evidence.value.explicitlyAccepted)
    && r.graceEndsAt == Some(r.confirmedAt.value + policy.gracePeriod)
  }

  // The steps a record lists succeeded, and from grace on it was confirmed.
  predicate Sound(policy: Policy, w: World, r: Record) {
    Recorded(w, r) && (Rank(r.phase) >= 2 ==> ConfirmedByAnother(policy, r))
  }

  predicate InHistory(w: World, r: Record) {
    Saved(r) in HistoryOf(w, r.id)
  }

  predicate PcSound(policy: Policy, w: World, pc: Pc) {
    match pc
    case RequestMissing(draft) => IsDraft(draft)
    case RequestUnknown(draft) => IsDraft(draft)
    case Creating(draft) => IsDraft(draft)
    case Stepping(r, part, _) => Sound(policy, w, r) && InPart(r, part) && InHistory(w, r)
    case SavingStep(p, part, _) => Sound(policy, w, p) && InPart(p, part)
    case SavingLast(p) => Sound(policy, w, p)
    case Reactivating(r, _, _) => Sound(policy, w, r) && r.phase == Grace
    case FinalizeAsked(_, _, _) => true
    case Admitting(p, _) => Sound(policy, w, p) && p.phase == Finalizing
  }

  predicate MarkSound(policy: Policy, w: World, h: seq<Mark>, i: nat)
    requires i < |h|
  {
    match h[i]
    case Saved(r) => Sound(policy, w, r)
    case Entombed(t) =>
      && i > 0 && h[i - 1].Saved? && h[i - 1].r.phase == Finalizing && h[i - 1].r.destruction == DESTRUCTION
      && h[i - 1].r.confirmedBy.Some? && t == TombstoneFor(h[i - 1].r, t.destroyedAt)
  }

  ghost predicate HistorySound(policy: Policy, w: World, id: string) {
    var h := HistoryOf(w, id);
    && (forall i | 0 <= i < |h| :: MarkSound(policy, w, h, i))
    && (forall i | 0 <= i < |h| && h[i].Saved? :: h[i].r.id == id)
    && (id in w.records ==> h != [] && h[|h| - 1] == Saved(w.records[id]) && w.records[id].id == id)
    && (id in w.tombstones ==> exists i :: 0 <= i < |h| && h[i] == Entombed(w.tombstones[id]))
    && (forall a | a in DESTRUCTION && (id, a) in w.ran :: EverFinalizing(h))
  }

  ghost predicate AllSound(policy: Policy, w: World) {
    && (forall id :: HistorySound(policy, w, id))
    && (forall c | c in w.callers :: PcSound(policy, w, w.callers[c]))
    && w.went <= w.ran
  }

  // ---------------------------------------------------------------------------
  // Every step keeps it
  // ---------------------------------------------------------------------------

  lemma PcStaysSound(policy: Policy, w: World, w': World, pc: Pc)
    requires PcSound(policy, w, pc) && Extends(w, w')
    ensures PcSound(policy, w', pc)
  {
    if pc.Stepping? { assert HistoryOf(w, pc.r.id) <= HistoryOf(w', pc.r.id); }
  }

  lemma MarksStaySound(policy: Policy, w: World, w': World, h: seq<Mark>)
    requires w.went <= w'.went && forall i | 0 <= i < |h| :: MarkSound(policy, w, h, i)
    ensures forall i | 0 <= i < |h| :: MarkSound(policy, w', h, i)
  {
    forall i | 0 <= i < |h| ensures MarkSound(policy, w', h, i) { assert MarkSound(policy, w, h, i); }
  }

  lemma HistoryStaysSound(policy: Policy, w: World, w': World, id: string)
    requires HistorySound(policy, w, id) && w.went <= w'.went && HistoryOf(w', id) == HistoryOf(w, id)
    requires (id in w'.records ==> id in w.records && w'.records[id] == w.records[id])
    requires (id in w'.tombstones ==> id in w.tombstones && w'.tombstones[id] == w.tombstones[id])
    requires forall a | a in DESTRUCTION && (id, a) in w'.ran :: (id, a) in w.ran || EverFinalizing(HistoryOf(w, id))
    ensures HistorySound(policy, w', id)
  {
    MarksStaySound(policy, w, w', HistoryOf(w, id));
  }

  // What one step of caller `c` did to the world.
  ghost predicate SoundEffect(policy: Policy, w: World, w': World, c: Caller) {
    && Extends(w, w') && w'.went <= w'.ran
    && (forall id :: HistorySound(policy, w', id))
    && (c in w'.callers ==> PcSound(policy, w', w'.callers[c]))
    && w'.callers - {c} == w.callers - {c}
  }

  lemma EffectStaysSound(policy: Policy, w: World, w': World, c: Caller)
    requires AllSound(policy, w) && SoundEffect(policy, w, w', c)
    ensures AllSound(policy, w')
  {
    forall d | d in w'.callers ensures PcSound(policy, w', w'.callers[d]) {
      if d != c {
        assert d in w'.callers - {c};
        PcStaysSound(policy, w, w', w.callers[d]);
      }
    }
  }

  lemma LeaveSound(policy: Policy, w: World, c: Caller)
    requires AllSound(policy, w)
    ensures SoundEffect(policy, w, Leave(w, c), c)
  {
    forall id ensures HistorySound(policy, Leave(w, c), id) { HistoryStaysSound(policy, w, Leave(w, c), id); }
  }

  lemma MoveSound(policy: Policy, w: World, c: Caller, pc: Pc)
    requires AllSound(policy, w) && PcSound(policy, w, pc)
    ensures SoundEffect(policy, w, Move(w, c, pc), c)
  {
    var w' := Move(w, c, pc);
    forall id ensures HistorySound(policy, w', id) { HistoryStaysSound(policy, w, w', id); }
    PcStaysSound(policy, w, w', pc);
  }

  lemma NotedSound(policy: Policy, w: World, id: string, a: Action, ok: bool)
    requires AllSound(policy, w) && (a in DESTRUCTION ==> EverFinalizing(HistoryOf(w, id)))
    ensures AllSound(policy, Noted(w, id, a, ok)) && Extends(w, Noted(w, id, a, ok))
  {
    var w' := Noted(w, id, a, ok);
    forall i ensures HistorySound(policy, w', i) { HistoryStaysSound(policy, w, w', i); }
    forall c | c in w'.callers ensures PcSound(policy, w', w'.callers[c]) { PcStaysSound(policy, w, w', w.callers[c]); }
  }

  lemma FinalizingStays(h: seq<Mark>, m: Mark)
    requires EverFinalizing(h)
    ensures EverFinalizing(h + [m])
  {
    var i :| 0 <= i < |h| && h[i].Saved? && h[i].r.phase == Finalizing;
    assert (h + [m])[i] == h[i];
  }

  lemma SaveSound(policy: Policy, w: World, c: Caller, p: Record, next: Option<Pc>)
    requires AllSound(policy, w) && Sound(policy, w, p) && RevisionMatches(w.records, p)
    ensures HistorySound(policy, Commit(w, c, p, next), p.id)
  {
    var w' := Commit(w, c, p, next);
    var h := HistoryOf(w, p.id);
    var g := HistoryOf(w', p.id);
    assert g == h + [Saved(Bumped(p))];
    assert HistorySound(policy, w, p.id);
    MarksStaySound(policy, w, w', h);
    forall i | 0 <= i < |g| ensures MarkSound(policy, w', g, i) {
      if i < |h| { assert MarkSound(policy, w', h, i); }
    }
    if p.id in w'.tombstones {
      var i :| 0 <= i < |h| && h[i] == Entombed(w.tombstones[p.id]);
      assert g[i] == h[i];
    }
    if EverFinalizing(h) { FinalizingStays(h, Saved(Bumped(p))); }
  }

  lemma CommitSound(policy: Policy, w: World, c: Caller, p: Record, next: Option<Pc>)
    requires AllSound(policy, w) && Sound(policy, w, p)
    requires next.Some? ==> next.value.Stepping? && next.value.r == Bumped(p) && InPart(p, next.value.part)
    ensures SoundEffect(policy, w, Commit(w, c, p, next), c)
  {
    if !RevisionMatches(w.records, p) {
      LeaveSound(policy, w, c);
    } else {
      var w' := Commit(w, c, p, next);
      forall id ensures HistorySound(policy, w', id) {
        if id == p.id { SaveSound(policy, w, c, p, next); } else { HistoryStaysSound(policy, w, w', id); }
      }
      var g := HistoryOf(w', p.id);
      assert g[|g| - 1] == Saved(Bumped(p));
    }
  }

  lemma BurySound(policy: Policy, w: World, c: Caller, r: Record, at: Instant)
    requires AllSound(policy, w) && r.id in w.records && w.records[r.id] == r && r.phase == Finalizing
    requires r.destruction == DESTRUCTION && r.confirmedBy.Some? && NextStep(Destroy, r.destruction, 0).None?
    ensures HistorySound(policy, Close(w, c, r, Destroy, at), r.id)
  {
    var w' := Close(w, c, r, Destroy, at);
    var h := HistoryOf(w, r.id);
    var g := HistoryOf(w', r.id);
    assert HistorySound(policy, w, r.id);
    assert g == h + [Entombed(TombstoneFor(r, at))];
    MarksStaySound(policy, w, w', h);
    forall i | 0 <= i < |g| ensures MarkSound(policy, w', g, i) {
      if i < |h| { assert MarkSound(policy, w', h, i); }
    }
    assert g[|h|] == Entombed(w'.tombstones[r.id]);
    if EverFinalizing(h) { FinalizingStays(h, Entombed(TombstoneFor(r, at))); }
  }

  lemma BuryingSound(policy: Policy, w: World, c: Caller, r: Record, at: Instant)
    requires AllSound(policy, w) && PcSound(policy, w, Stepping(r, Destroy, at))
    requires NextStep(Destroy, r.destruction, 0).None? && r.id in w.records && w.records[r.id] == r
    ensures SoundEffect(policy, w, Close(w, c, r, Destroy, at), c)
  {
    NextStepFrom(Destroy, r.destruction, 0);
    var w' := Close(w, c, r, Destroy, at);
    forall id ensures HistorySound(policy, w', id) {
      if id == r.id { BurySound(policy, w, c, r, at); } else { HistoryStaysSound(policy, w, w', id); }
    }
  }

  lemma CloseSound(policy: Policy, w: World, c: Caller, r: Record, part: Part, at: Instant)
    requires AllSound(policy, w) && PcSound(policy, w, Stepping(r, part, at))
    requires NextStep(part, Completed(r, part), 0).None?
    ensures SoundEffect(policy, w, Close(w, c, r, part, at), c)
  {
    NextStepFrom(part, Completed(r, part), 0);
    if part == Suspend {
      MoveSound(policy, w, c, SavingLast(r.(phase := Suspended, lastFailed := None)));
    } else if r.id in w.records && w.records[r.id] == r {
      BuryingSound(policy, w, c, r, at);
    } else {
      LeaveSound(policy, w, c);
    }
  }

  lemma CompletedSound(policy: Policy, w: World, r: Record, part: Part, a: Action)
    requires Sound(policy, w, r) && InPart(r, part) && NextStep(part, Completed(r, part), 0) == Some(a)
    ensures Sound(policy, Noted(w, r.id, a, true), Complete(r, part, a))
  {
    StepDerives(policy, r, part, a);
    assert Recorded(Noted(w, r.id, a, true), Complete(r, part, a));
  }

  lemma StepSound(policy: Policy, w: World, r: Record, part: Part, at: Instant, a: Action, ok: bool)
    requires PcSound(policy, w, Stepping(r, part, at)) && NextStep(part, Completed(r, part), 0) == Some(a)
    ensures PcSound(policy, Noted(w, r.id, a, ok), AfterStep(r, part, at, a, ok))
  {
    if ok { CompletedSound(policy, w, r, part, a); }
  }

  lemma StepAdmitted(policy: Policy, w: World, r: Record, part: Part, at: Instant, a: Action)
    requires PcSound(policy, w, Stepping(r, part, at)) && NextStep(part, Completed(r, part), 0) == Some(a)
    ensures a in DESTRUCTION ==> EverFinalizing(HistoryOf(w, r.id))
  {
    NextStepFrom(part, Completed(r, part), 0);
    if part == Destroy {
      var h := HistoryOf(w, r.id);
      var i :| 0 <= i < |h| && h[i] == Saved(r);
      assert h[i].r.phase == Finalizing;
    }
  }

  lemma RunStepSound(policy: Policy, w: World, c: Caller, r: Record, part: Part, at: Instant, ok: bool)
    requires AllSound(policy, w) && PcSound(policy, w, Stepping(r, part, at))
    requires NextStep(part, Completed(r, part), 0).Some?
    ensures SoundEffect(policy, w, RunStep(w, c, r, part, at, ok), c)
  {
    var a := NextStep(part, Completed(r, part), 0).value;
    var w1 := Noted(w, r.id, a, ok);
    StepSound(policy, w, r, part, at, a, ok);
    StepAdmitted(policy, w, r, part, at, a);
    NotedSound(policy, w, r.id, a, ok);
    MoveSound(policy, w1, c, AfterStep(r, part, at, a, ok));
    EffectsJoin(policy, w, w1, Move(w1, c, AfterStep(r, part, at, a, ok)), c);
  }

  lemma EffectsJoin(policy: Policy, w: World, w1: World, w2: World, c: Caller)
    requires Extends(w, w1) && w1.callers == w.callers && SoundEffect(policy, w1, w2, c)
    ensures SoundEffect(policy, w, w2, c)
  {
    forall id ensures HistoryOf(w, id) <= HistoryOf(w2, id) {
      assert HistoryOf(w, id) <= HistoryOf(w1, id) && HistoryOf(w1, id) <= HistoryOf(w2, id);
    }
  }

  lemma ReactivatingSound(policy: Policy, w: World, c: Caller, r: Record, actor: string, at: Instant, ok: bool)
    requires AllSound(policy, w) && PcSound(policy, w, Reactivating(r, actor, at))
    ensures SoundEffect(policy, w, Continue(w, c, Reactivating(r, actor, at), ok), c)
  {
    var w1 := Noted(w, r.id, Reactivate, ok);
    NotedSound(policy, w, r.id, Reactivate, ok);
    var p := if ok then r.(phase := Cancelled, cancelledBy := Some(actor), cancelledAt := Some(at), lastFailed := None)
             else r.(lastFailed := Some(Reactivate));
    MoveSound(policy, w1, c, SavingLast(p));
    EffectsJoin(policy, w, w1, Move(w1, c, SavingLast(p)), c);
  }

  // A record just read from the store is in its history.
  lemma ReadSound(policy: Policy, w: World, id: string)
    requires AllSound(policy, w) && id in w.records
    ensures w.records[id].id == id && InHistory(w, w.records[id]) && Sound(policy, w, w.records[id])
  {
    assert HistorySound(policy, w, id);
    var h := HistoryOf(w, id);
    assert MarkSound(policy, w, h, |h| - 1);
  }

  lemma ReadForFinalizeSound(policy: Policy, w: World, c: Caller, id: string, tenant: string, at: Instant)
    requires AllSound(policy, w)
    ensures SoundEffect(policy, w, ReadForFinalize(w, c, id, tenant, at), c)
  {
    LeaveSound(policy, w, c);
    if id in w.records {
      var r := w.records[id];
      ReadSound(policy, w, id);
      if r.phase == Grace {
        MoveSound(policy, w, c, Admitting(r.(phase := Finalizing, lastFailed := None), at));
      } else if r.phase == Finalizing {
        MoveSound(policy, w, c, Stepping(r, Destroy, at));
      }
    }
  }

  lemma ContinueSound(policy: Policy, w: World, c: Caller, ok: bool)
    requires AllSound(policy, w) && c in w.callers
    ensures SoundEffect(policy, w, Continue(w, c, w.callers[c], ok), c)
  {
    assert PcSound(policy, w, w.callers[c]);
    LeaveSound(policy, w, c);
    match w.callers[c]
    case RequestMissing(draft) => MoveSound(policy, w, c, RequestUnknown(draft));
    case RequestUnknown(draft) => MoveSound(policy, w, c, Creating(draft));
    case Creating(draft) => CommitSound(policy, w, c, draft, Some(Stepping(Bumped(draft), Suspend, 0)));
    case Stepping(r, part, at) =>
      if NextStep(part, Completed(r, part), 0).Some? {
        RunStepSound(policy, w, c, r, part, at, ok);
      } else {
        CloseSound(policy, w, c, r, part, at);
      }
    case SavingStep(p, part, at) => CommitSound(policy, w, c, p, Some(Stepping(Bumped(p), part, at)));
    case SavingLast(p) => CommitSound(policy, w, c, p, None);
    case Reactivating(r, actor, at) => ReactivatingSound(policy, w, c, r, actor, at, ok);
    case FinalizeAsked(id, tenant, at) => ReadForFinalizeSound(policy, w, c, id, tenant, at);
    case Admitting(p, at) => CommitSound(policy, w, c, p, Some(Stepping(Bumped(p), Destroy, at)));
  }

  lemma AskSound(policy: Policy, w: World, st: Step)
    requires AllSound(policy, w)
    ensures Ask(policy, w, st) == w || SoundEffect(policy, w, Ask(policy, w, st), st.c)
  {
    LeaveSound(policy, w, st.c);
    match st
    case AskRequest(c, draft) =>
      if IsDraft(draft) {
        MoveSound(policy, w, c, RequestMissing(draft));
        if draft.id in w.records {
          ReadSound(policy, w, draft.id);
          if w.records[draft.id].phase == Suspending { MoveSound(policy, w, c, Stepping(w.records[draft.id], Suspend, 0)); }
        }
      }
    case AskConfirm(c, id, tenant, actor, e, at, verified) =>
      if id in w.records {
        var r := w.records[id];
        ReadSound(policy, w, id);
        if actor != r.requestedBy && r.phase == Suspended && at >= r.requestedAt && Trustworthy(policy, e, at) {
          MoveSound(policy, w, c, SavingLast(
            r.(phase := Grace, confirmedBy := Some(actor), confirmedAt := Some(at),
               graceEndsAt := Some(at + policy.gracePeriod), evidence := Some(e), lastFailed := None)));
        }
      }
    case AskCancel(c, id, tenant, actor, at) =>
      if id in w.records {
        ReadSound(policy, w, id);
        if w.records[id].phase == Grace { MoveSound(policy, w, c, Reactivating(w.records[id], actor, at)); }
      }
    case AskFinalize(c, id, tenant, at) => MoveSound(policy, w, c, FinalizeAsked(id, tenant, at));
    case _ =>
  }

  lemma ApplySound(policy: Policy, w: World, st: Step)
    requires AllSound(policy, w)
    ensures AllSound(policy, Apply(policy, w, st)) && Extends(w, Apply(policy, w, st))
  {
    var w' := Apply(policy, w, st);
    match st
    case Advance(c, ok) =>
      if c in w.callers {
        ContinueSound(policy, w, c, ok);
        EffectStaysSound(policy, w, w', c);
      }
    case CheckFails(c, a) =>
      if w' != w {
        assert PcSound(policy, w, w.callers[c]);
        MoveSound(policy, w, c, SavingLast(w.callers[c].r.(lastFailed := Some(a))));
        EffectStaysSound(policy, w, w', c);
      }
    case Crash(c) =>
      LeaveSound(policy, w, c);
      EffectStaysSound(policy, w, w', c);
    case _ =>
      AskSound(policy, w, st);
      if w' != w { EffectStaysSound(policy, w, w', st.c); }
  }

  lemma {:induction false} RunSound(policy: Policy, w: World, steps: seq<Step>)
    requires AllSound(policy, w)
    ensures AllSound(policy, Run(policy, w, steps)) && w.ran <= Run(policy, w, steps).ran
    decreases |steps|
  {
    if steps != [] {
      ApplySound(policy, w, steps[0]);
      RunSound(policy, Apply(policy, w, steps[0]), steps[1..]);
    }
  }

  lemma StartSound(policy: Policy)
    ensures AllSound(policy, START)
  {
  }

  // ---------------------------------------------------------------------------
  // The results
  // ---------------------------------------------------------------------------

  // In every run: whoever saved a record in or after grace, it was confirmed by someone other than
  // its requester, and the steps a saved record lists succeeded.
  lemma SavedIsEarned(policy: Policy, steps: seq<Step>, id: string, i: nat)
    requires var h := HistoryOf(Run(policy, START, steps), id); i < |h| && h[i].Saved?
    ensures var w := Run(policy, START, steps);
            var r := HistoryOf(w, id)[i].r;
            && (forall a | a in r.suspension || a in r.destruction :: (id, a) in w.went)
            && (Rank(r.phase) >= 2 ==> ConfirmedByAnother(policy, r))
            && (r.phase != Suspending ==> r.suspension == SUSPENSION)
  {
    StartSound(policy);
    RunSound(policy, START, steps);
    var w := Run(policy, START, steps);
    assert HistorySound(policy, w, id);
    assert MarkSound(policy, w, HistoryOf(w, id), i);
  }

  // In every run: no destruction action is even attempted for a request before a record of it was
  // admitted to destruction, confirmed by another.
  lemma DestructionIsConfirmed(policy: Policy, steps: seq<Step>, id: string, a: Action)
    requires a in DESTRUCTION && (id, a) in Run(policy, START, steps).ran
    ensures var h := HistoryOf(Run(policy, START, steps), id);
            exists i :: 0 <= i < |h| && h[i].Saved? && h[i].r.phase == Finalizing && ConfirmedByAnother(policy, h[i].r)
  {
    StartSound(policy);
    RunSound(policy, START, steps);
    var w := Run(policy, START, steps);
    var h := HistoryOf(w, id);
    assert HistorySound(policy, w, id);
    var i :| 0 <= i < |h| && h[i].Saved? && h[i].r.phase == Finalizing;
    assert MarkSound(policy, w, h, i);
  }

  // In every run: a tombstone was written on top of a finalizing record, all nine of its steps
  // succeeded and another operator confirmed it. It ends the request's history, with the record gone,
  // unless a stale create revived the request.
  lemma TombstoneIsEarned(policy: Policy, steps: seq<Step>, id: string) returns (i: nat)
    requires id in Run(policy, START, steps).tombstones
    ensures var w := Run(policy, START, steps);
            && (forall a | a in SUSPENSION || a in DESTRUCTION :: (id, a) in w.went)
            && var h := HistoryOf(w, id);
               && 0 < i < |h| && h[i] == Entombed(w.tombstones[id]) && h[i - 1].Saved?
               && h[i - 1].r.phase == Finalizing && ConfirmedByAnother(policy, h[i - 1].r)
               && w.tombstones[id] == TombstoneFor(h[i - 1].r, w.tombstones[id].destroyedAt)
               && (id !in Revived(policy, START, steps) ==> i == |h| - 1 && id !in w.records)
  {
    StartSound(policy);
    RunSound(policy, START, steps);
    var w := Run(policy, START, steps);
    var h := HistoryOf(w, id);
    assert HistorySound(policy, w, id);
    i :| 0 <= i < |h| && h[i] == Entombed(w.tombstones[id]);
    assert MarkSound(policy, w, h, i) && MarkSound(policy, w, h, i - 1);
    if id !in Revived(policy, START, steps) {
      RunFits(policy, steps);
      assert RequestFits(policy, w, id);
      assert i + 1 < |h| ==> Link(policy, h, i + 1);
    }
  }
}
