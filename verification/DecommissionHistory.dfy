// What the history of a decommission request can look like after any run of calls that do not
// overlap, whatever fails, dies or is retried.
module DecommissionHistory {
  import opened Common
  import opened Decommission

  // ---------------------------------------------------------------------------
  // Milestones
  // ---------------------------------------------------------------------------

  // The fixed order: the request, three suspension steps, the confirmation (and any attempt to
  // cancel, which is only possible then), the admission to finalize, six destruction steps, the
  // tombstone.
  function ActionPosition(a: Action): nat {
    match a
    case SuspendSessions => 1
    case BlockTokenIssuance => 2
    case RevokeCredentials => 3
    case RemoveCompose => 6
    case RemoveVolume => 7
    case RemoveDatabase => 8
    case RemoveRoute => 9
    case RemoveSecrets => 10
    case PurgeRecords => 11
    case _ => 4
  }

  function Position(e: Entry): nat {
    match e
    case Requested(_, _) => 0
    case Ran(a, _) => ActionPosition(a)
    case Confirmed(_, _, _) => 4
    case Admitted(_) => 5
    case Buried(_) => 12
  }

  predicate Passed(e: Entry) {
    e.Ran? && ActionPosition(e.action) != 4 ==> e.ok
  }

  predicate Follows(a: Entry, b: Entry) {
    (b.Ran? && Position(b) == Position(a)) || (Passed(a) && Position(b) == Position(a) + 1 && (Position(b) == 4 ==> b.Confirmed?))
  }

  // Each entry repeats the step before it or, once that step has passed, moves on to the next.
  predicate Walk(h: seq<Entry>) {
    && (h != [] ==> h[0].Requested?)
    && forall i | 0 < i < |h| :: Follows(h[i - 1], h[i])
  }

  predicate IsEarned(policy: Policy, h: seq<Entry>, i: nat)
    requires i < |h|
  {
    && (h[i].Confirmed? ==>
          h[0].Requested? && h[i].actor != h[0].actor && h[0].at <= h[i].at && Trustworthy(policy, h[i].evidence, h[i].at))
    && (h[i].Admitted? ==>
          forall c | 0 <= c < i && h[c].Confirmed? :: h[i].at >= h[c].at + policy.gracePeriod)
  }

  predicate Earned(policy: Policy, h: seq<Entry>) {
    forall i | 0 <= i < |h| :: IsEarned(policy, h, i)
  }

  lemma {:induction false} PassedBefore(h: seq<Entry>, j: nat, q: nat) returns (i: nat)
    requires Walk(h) && j < |h| && q < Position(h[j])
    ensures i < j && Position(h[i]) == q && Passed(h[i])
  {
    assert Follows(h[j - 1], h[j]);
    if Position(h[j - 1]) == q && Passed(h[j - 1]) {
      i := j - 1;
    } else {
      i := PassedBefore(h, j - 1, q);
    }
  }

  lemma {:induction false} NeverBackwards(h: seq<Entry>, i: nat, j: nat)
    requires Walk(h) && i <= j < |h|
    ensures Position(h[i]) <= Position(h[j])
    decreases j
  {
    if i < j {
      NeverBackwards(h, i, j - 1);
      assert Follows(h[j - 1], h[j]);
    }
  }

  lemma {:induction false} ConfirmedFirst(h: seq<Entry>, j: nat) returns (c: nat)
    requires Walk(h) && j < |h| && Position(h[j]) >= 4
    ensures c <= j && h[c].Confirmed?
  {
    if h[j].Confirmed? {
      c := j;
    } else {
      assert Follows(h[j - 1], h[j]);
      c := ConfirmedFirst(h, j - 1);
    }
  }

  // ---------------------------------------------------------------------------
  // How a stored record relates to its history
  // ---------------------------------------------------------------------------

  const CANCELLATION: seq<Entry> :=
    [Ran(VerifyRoute, true), Ran(VerifySchema, true), Ran(VerifyIsolation, true), Ran(VerifyCredentials, true),
     Ran(VerifyHealth, true), Ran(Reactivate, true)]

  predicate EndsWith<T(==)>(h: seq<T>, tail: seq<T>) {
    |tail| <= |h| && h[|h| - |tail|..] == tail
  }

  // The last entry is the next step, tried but not recorded, or the last one recorded.
  predicate AtStep(h: seq<Entry>, first: nat, done: nat, total: nat)
    requires h != []
  {
    var last := h[|h| - 1];
    || (Position(last) == first + done && done < total)
    || (Position(last) + 1 == first + done && Passed(last))
  }

  predicate CancelledInTime(r: Record) {
    r.cancelledBy.Some? && r.cancelledAt.Some? && r.graceEndsAt.Some? && r.cancelledAt.value < r.graceEndsAt.value
  }

  predicate PhaseFits(r: Record, h: seq<Entry>)
    requires h != []
  {
    var last := h[|h| - 1];
    match r.phase
    case Suspending => r.suspension <= SUSPENSION && r.destruction == [] && AtStep(h, 1, |r.suspension|, 3)
    case Suspended => r.suspension == SUSPENSION && r.destruction == [] && Position(last) == 3 && Passed(last)
    case Grace => r.suspension == SUSPENSION && r.destruction == [] && Position(last) == 4
    case Cancelled => r.suspension == SUSPENSION && r.destruction == [] && Position(last) == 4 && EndsWith(h, CANCELLATION) && CancelledInTime(r)
    case Finalizing => r.suspension == SUSPENSION && r.destruction <= DESTRUCTION && AtStep(h, 6, |r.destruction|, 6)
  }

  predicate ConfirmationFits(policy: Policy, r: Record, h: seq<Entry>) {
    if r.phase == Suspending || r.phase == Suspended then
      forall e | e in h :: !e.Confirmed?
    else
      && r.confirmedBy.Some? && r.confirmedAt.Some? && r.evidence.Some?
      && r.graceEndsAt == Some(r.confirmedAt.value + policy.gracePeriod)
      && forall e | e in h :: e.Confirmed? ==> e == Confirmed(r.confirmedBy.value, r.confirmedAt.value, r.evidence.value)
  }

  predicate Fits(policy: Policy, r: Record, h: seq<Entry>) {
    && h != [] && Walk(h) && Earned(policy, h)
    && h[0] == Requested(r.requestedBy, r.requestedAt)
    && r.revision >= 1
    && PhaseFits(r, h)
    && ConfirmationFits(policy, r, h)
  }

  predicate TombstoneFits(policy: Policy, t: Tombstone, h: seq<Entry>) {
    && h != [] && Walk(h) && Earned(policy, h)
    && h[|h| - 1] == Buried(t.destroyedAt)
    && h[0].Requested? && h[0].actor == t.requestedBy
    && forall e | e in h :: e.Confirmed? ==> e.actor == t.confirmedBy
  }

  predicate Good(policy: Policy, s: State, id: string) {
    if id in s.records then
      id !in s.tombstones && s.records[id].id == id && Fits(policy, s.records[id], LogOf(s, id))
    else if id in s.tombstones then TombstoneFits(policy, s.tombstones[id], LogOf(s, id))
    else LogOf(s, id) == []
  }

  ghost predicate Inv(policy: Policy, s: State) {
    forall id :: Good(policy, s, id)
  }

  // The first position that a later call can still reach: recorded milestones lie below it.
  function Level(r: Record): nat {
    match r.phase
    case Suspending => 1 + |r.suspension|
    case Suspended => 4
    case Grace => 4
    case Finalizing => 6 + |r.destruction|
    case Cancelled => 13
  }

  function LevelOf(s: State, id: string): nat {
    if id in s.records then Level(s.records[id]) else if id in s.tombstones then 13 else 0
  }

  predicate Grown(h: seq<Entry>, h': seq<Entry>, level: nat) {
    && h <= h'
    && forall i | |h| <= i < |h'| :: Position(h'[i]) >= level
  }

  predicate Elsewhere(s: State, s': State, id: string) {
    && s'.records - {id} == s.records - {id}
    && s'.tombstones - {id} == s.tombstones - {id}
    && s'.log - {id} == s.log - {id}
  }

  // One call made on behalf of request `id` did no harm.
  predicate Advances(policy: Policy, s: State, s': State, id: string) {
    && Good(policy, s', id)
    && Elsewhere(s, s', id)
    && Grown(LogOf(s, id), LogOf(s', id), LevelOf(s, id))
    && LevelOf(s, id) <= LevelOf(s', id)
  }

  lemma AdvancesTransitively(policy: Policy, a: State, b: State, c: State, id: string)
    requires Advances(policy, a, b, id) && Advances(policy, b, c, id)
    ensures Advances(policy, a, c, id)
  {
    var h, h', h'' := LogOf(a, id), LogOf(b, id), LogOf(c, id);
    forall i | |h| <= i < |h''| ensures Position(h''[i]) >= LevelOf(a, id) {
      if i < |h'| { assert h''[i] == h'[i]; }
    }
  }

  lemma ElsewhereAgrees(s: State, s': State, id: string, other: string)
    requires Elsewhere(s, s', id) && other != id
    ensures other in s.records <==> other in s'.records
    ensures other in s.records ==> s'.records[other] == s.records[other]
    ensures other in s.tombstones <==> other in s'.tombstones
    ensures other in s.tombstones ==> s'.tombstones[other] == s.tombstones[other]
    ensures LogOf(s', other) == LogOf(s, other)
  {
    assert other in s.records <==> other in s.records - {id};
    assert other in s'.records <==> other in s'.records - {id};
    assert other in s.tombstones <==> other in s.tombstones - {id};
    assert other in s'.tombstones <==> other in s'.tombstones - {id};
    assert other in s.log <==> other in s.log - {id};
    assert other in s'.log <==> other in s'.log - {id};
  }

  // ---------------------------------------------------------------------------
  // Extending a history
  // ---------------------------------------------------------------------------

  lemma Extend(policy: Policy, h: seq<Entry>, e: Entry)
    requires h != [] && Walk(h) && Earned(policy, h)
    requires Follows(h[|h| - 1], e)
    requires IsEarned(policy, h + [e], |h|)
    ensures Walk(h + [e]) && Earned(policy, h + [e])
  {
    var g := h + [e];
    forall i | 0 < i < |g| ensures Follows(g[i - 1], g[i]) {
      if i < |h| { assert Follows(h[i - 1], h[i]); }
    }
    forall i | 0 <= i < |g| ensures IsEarned(policy, g, i) {
      if i < |h| { assert IsEarned(policy, h, i); }
    }
  }

  predicate InPart(r: Record, part: Part) {
    r.phase == if part == Suspend then Suspending else Finalizing
  }

  lemma RanFits(policy: Policy, r: Record, h: seq<Entry>, part: Part, ok: bool)
    requires Fits(policy, r, h) && InPart(r, part) && |Completed(r, part)| < |Order(part)|
    ensures Fits(policy, r, h + [Ran(Order(part)[|Completed(r, part)|], ok)])
    ensures Position(Ran(Order(part)[|Completed(r, part)|], ok)) == Level(r)
  {
    var e := Ran(Order(part)[|Completed(r, part)|], ok);
    Extend(policy, h, e);
  }

  lemma CompleteFits(policy: Policy, r: Record, h: seq<Entry>, part: Part)
    requires Fits(policy, r, h) && InPart(r, part) && |Completed(r, part)| < |Order(part)|
    requires h[|h| - 1] == Ran(Order(part)[|Completed(r, part)|], true)
    ensures Fits(policy, Bumped(Complete(r, part, Order(part)[|Completed(r, part)|])), h)
    ensures Completed(Complete(r, part, Order(part)[|Completed(r, part)|]), part) == Order(part)[..|Completed(r, part)| + 1]
  {
  }

  // Saving a record that is the current one succeeds, and only it changes.
  lemma SaveCurrent(policy: Policy, s: State, r: Record, r': Record)
    requires Good(policy, s, r.id) && r.id in s.records && s.records[r.id] == r
    requires r'.id == r.id && r'.revision == r.revision
    requires Fits(policy, Bumped(r'), LogOf(s, r.id)) && Level(r) <= Level(r')
    ensures Save(s, r').Through? && Save(s, r').r == Bumped(r')
    ensures Advances(policy, s, Save(s, r').s, r.id)
    ensures r.id in Save(s, r').s.records && Save(s, r').s.records[r.id] == Bumped(r')
    ensures LogOf(Save(s, r').s, r.id) == LogOf(s, r.id)
  {
  }

  lemma NoteAdvances(policy: Policy, s: State, id: string, e: Entry)
    requires id in s.records && Good(policy, s, id)
    requires Fits(policy, s.records[id], LogOf(s, id) + [e]) && Position(e) >= Level(s.records[id])
    ensures Advances(policy, s, Note(s, id, e), id)
    ensures Note(s, id, e).records == s.records
  {
  }

  // A failed step or check is noted and then saved on the unchanged record.
  lemma FailureAdvances(policy: Policy, s: State, r: Record, a: Action, e: Entry, reply: Reply)
    requires Good(policy, s, r.id) && r.id in s.records && s.records[r.id] == r && r.phase != Cancelled
    requires Advances(policy, s, Note(s, r.id, e), r.id) && Fits(policy, r, LogOf(s, r.id) + [e])
    ensures var p := SaveFailure(Note(s, r.id, e), r, a, reply);
            p == Halted(p.s, reply) && Advances(policy, s, p.s, r.id)
            && r.id in p.s.records && p.s.records[r.id] == Bumped(r.(lastFailed := Some(a)))
  {
    var s1 := Note(s, r.id, e);
    SaveCurrent(policy, s1, r, r.(lastFailed := Some(a)));
    AdvancesTransitively(policy, s, s1, Save(s1, r.(lastFailed := Some(a))).s, r.id);
  }

  predicate Holds(s: State, r: Record, part: Part) {
    r.id in s.records && s.records[r.id] == r && InPart(r, part)
  }

  lemma StepSucceeds(policy: Policy, s: State, r: Record, part: Part)
    requires Good(policy, s, r.id) && Holds(s, r, part) && |Completed(r, part)| < |Order(part)|
    ensures var a := Order(part)[|Completed(r, part)|];
            var p := Save(Note(s, r.id, Ran(a, true)), Complete(r, part, a));
            && Advances(policy, s, Note(s, r.id, Ran(a, true)), r.id)
            && p.Through? && p.r == Bumped(Complete(r, part, a)) && Holds(p.s, p.r, part)
            && Advances(policy, s, p.s, r.id)
            && Completed(p.r, part) == Order(part)[..|Completed(r, part)| + 1]
  {
    var a := Order(part)[|Completed(r, part)|];
    var s1 := Note(s, r.id, Ran(a, true));
    RanFits(policy, r, LogOf(s, r.id), part, true);
    NoteAdvances(policy, s, r.id, Ran(a, true));
    CompleteFits(policy, r, LogOf(s1, r.id), part);
    SaveCurrent(policy, s1, r, Complete(r, part, a));
    AdvancesTransitively(policy, s, s1, Save(s1, Complete(r, part, a)).s, r.id);
  }

  lemma StepFails(policy: Policy, s: State, r: Record, part: Part)
    requires Good(policy, s, r.id) && Holds(s, r, part) && |Completed(r, part)| < |Order(part)|
    ensures var a := Order(part)[|Completed(r, part)|];
            var p := SaveFailure(Note(s, r.id, Ran(a, false)), r, a, Failed(a));
            && Advances(policy, s, Note(s, r.id, Ran(a, false)), r.id)
            && p == Halted(p.s, Failed(a)) && Advances(policy, s, p.s, r.id)
            && r.id in p.s.records && p.s.records[r.id] == Bumped(r.(lastFailed := Some(a)))
  {
    var a := Order(part)[|Completed(r, part)|];
    RanFits(policy, r, LogOf(s, r.id), part, false);
    NoteAdvances(policy, s, r.id, Ran(a, false));
    FailureAdvances(policy, s, r, a, Ran(a, false), Failed(a));
  }

  lemma FreshStep(part: Part, k: nat)
    requires k < |Order(part)|
    ensures Order(part)[k] !in Order(part)[..k]
  {
  }

  // What is left of the request after its steps ran, as far as they could.
  predicate StepsDone(policy: Policy, s: State, r: Record, part: Part, p: Progress) {
    && Advances(policy, s, p.s, r.id)
    && r.id in p.s.records && p.s.records[r.id].phase == r.phase && p.s.records[r.id].resources == r.resources
    && (p.Through? ==> p.r.id == r.id && Holds(p.s, p.r, part) && Completed(p.r, part) == Order(part))
  }

  // One fresh step: the call ends here, or the rest of the steps run from the saved record.
  lemma FreshStepFits(policy: Policy, s: State, r: Record, part: Part, fates: Fates, rest: Progress)
    requires Good(policy, s, r.id) && Holds(s, r, part) && |Completed(r, part)| < |Order(part)|
    requires var a := Order(part)[|Completed(r, part)|];
             var p := Save(Note(s, r.id, Ran(a, true)), Complete(r, part, a));
             p.Through? && StepsDone(policy, p.s, p.r, part, rest)
    ensures StepsDone(policy, s, r, part, rest)
  {
    var a := Order(part)[|Completed(r, part)|];
    StepSucceeds(policy, s, r, part);
    var p := Save(Note(s, r.id, Ran(a, true)), Complete(r, part, a));
    AdvancesTransitively(policy, s, p.s, rest.s, r.id);
  }

  lemma EarlyEndFits(policy: Policy, s: State, r: Record, part: Part, fates: Fates)
    requires Good(policy, s, r.id) && Holds(s, r, part) && |Completed(r, part)| < |Order(part)|
    ensures var a := Order(part)[|Completed(r, part)|];
            && StepsDone(policy, s, r, part, Halted(s, Died))
            && StepsDone(policy, s, r, part, Halted(Note(s, r.id, Ran(a, true)), Died))
            && StepsDone(policy, s, r, part, Halted(Note(s, r.id, Ran(a, false)), Died))
            && StepsDone(policy, s, r, part, SaveFailure(Note(s, r.id, Ran(a, false)), r, a, Failed(a)))
  {
    StepSucceeds(policy, s, r, part);
    StepFails(policy, s, r, part);
  }

  lemma CompletedIsPrefix(policy: Policy, s: State, r: Record, part: Part)
    requires Good(policy, s, r.id) && Holds(s, r, part)
    ensures Completed(r, part) <= Order(part)
  {
  }

  lemma RunFresh(s: State, r: Record, part: Part, k: nat, fates: Fates)
    requires k < |Order(part)| && Completed(r, part) == Order(part)[..k]
    ensures var a := Order(part)[k];
            var p := Save(Note(s, r.id, Ran(a, true)), Complete(r, part, a));
            RunSteps(s, r, part, k, fates) ==
              match FateOf(fates, a)
              case DiesBefore => Halted(s, Died)
              case DiesAfter => Halted(Note(s, r.id, Ran(a, true)), Died)
              case RaisesAndDies => Halted(Note(s, r.id, Ran(a, false)), Died)
              case Succeeds => if p.Through? then RunSteps(p.s, p.r, part, k + 1, fates) else p
              case _ => SaveFailure(Note(s, r.id, Ran(a, false)), r, a, Failed(a))
  {
    FreshStep(part, k);
  }

  lemma {:induction false} StepsFit(policy: Policy, s: State, r: Record, part: Part, k: nat, fates: Fates)
    requires Good(policy, s, r.id) && Holds(s, r, part) && k <= |Completed(r, part)|
    ensures k <= |Order(part)|
    ensures StepsDone(policy, s, r, part, RunSteps(s, r, part, k, fates))
    decreases |Order(part)| - k, 1
  {
    CompletedIsPrefix(policy, s, r, part);
    if k < |Completed(r, part)| {
      assert Completed(r, part)[k] == Order(part)[k];
      StepsFit(policy, s, r, part, k + 1, fates);
    } else if k < |Order(part)| {
      assert Completed(r, part) == Order(part)[..k];
      StepFresh(policy, s, r, part, k, fates);
    }
  }

  lemma {:induction false} StepFresh(policy: Policy, s: State, r: Record, part: Part, k: nat, fates: Fates)
    requires Good(policy, s, r.id) && Holds(s, r, part) && k < |Order(part)|
    requires Completed(r, part) == Order(part)[..k]
    ensures StepsDone(policy, s, r, part, RunSteps(s, r, part, k, fates))
    decreases |Order(part)| - k, 0
  {
    var a := Order(part)[k];
    RunFresh(s, r, part, k, fates);
    EarlyEndFits(policy, s, r, part, fates);
    if FateOf(fates, a) == Succeeds {
      StepSucceeds(policy, s, r, part);
      var p := Save(Note(s, r.id, Ran(a, true)), Complete(r, part, a));
      GoodAfter(policy, s, p.s, r.id);
      StepsFit(policy, p.s, p.r, part, k + 1, fates);
      FreshStepFits(policy, s, r, part, fates, RunSteps(p.s, p.r, part, k + 1, fates));
    }
  }

  lemma GoodAfter(policy: Policy, s: State, s': State, id: string)
    requires Advances(policy, s, s', id)
    ensures Good(policy, s', id)
  {
  }

  // ---------------------------------------------------------------------------
  // One call
  // ---------------------------------------------------------------------------

  // What one call for request `id` leaves of it.
  predicate CallDone(policy: Policy, s: State, s': State, id: string) {
    && Advances(policy, s, s', id)
    && (id in s'.records ==>
          if id in s.records then s'.records[id].resources == s.records[id].resources
          else !Open(s.records, s'.records[id].resources.tenant))
  }

  lemma Idle(policy: Policy, s: State, id: string)
    requires Good(policy, s, id)
    ensures CallDone(policy, s, s, id)
  {
  }

  lemma SuspendFits(policy: Policy, s: State, r: Record, fates: Fates)
    requires Good(policy, s, r.id) && Holds(s, r, Suspend)
    ensures var s' := SuspendAccess(s, r, fates).0;
            Advances(policy, s, s', r.id) && r.id in s'.records && s'.records[r.id].resources == r.resources
  {
    StepsFit(policy, s, r, Suspend, 0, fates);
    var p := RunSteps(s, r, Suspend, 0, fates);
    GoodAfter(policy, s, p.s, r.id);
    if p.Through? {
      var r' := p.r.(phase := Suspended, lastFailed := None);
      SuspendedFits(policy, p.r, LogOf(p.s, r.id));
      SaveCurrent(policy, p.s, p.r, r');
      AdvancesTransitively(policy, s, p.s, Save(p.s, r').s, r.id);
    }
  }

  lemma SuspendedFits(policy: Policy, r: Record, h: seq<Entry>)
    requires Fits(policy, r, h) && r.phase == Suspending && r.suspension == SUSPENSION
    ensures Fits(policy, Bumped(r.(phase := Suspended, lastFailed := None)), h)
  {
  }

  lemma CreateFits(policy: Policy, s: State, r: Record, at: Instant)
    requires Good(policy, s, r.id) && r.id !in s.records && r.id !in s.tombstones
    requires r == NewRecord(r.id, r.resources, r.requestedBy, r.reason, at, r.policyName)
    ensures var p := Save(Note(s, r.id, Requested(r.requestedBy, at)), r);
            p.Through? && p.r == Bumped(r) && Holds(p.s, p.r, Suspend) && Advances(policy, s, p.s, r.id)
  {
    var h := LogOf(Note(s, r.id, Requested(r.requestedBy, at)), r.id);
    assert h == [Requested(r.requestedBy, at)];
    assert Fits(policy, Bumped(r), h);
  }

  lemma RequestDone(policy: Policy, s: State, id: string, resources: Resources, actor: string,
          reason: string, at: Instant, policyName: string, fates: Fates)
    requires Good(policy, s, id)
    ensures CallDone(policy, s, Request(s, id, resources, actor, reason, at, policyName, fates).0, id)
  {
    Idle(policy, s, id);
    if id in s.records {
      if s.records[id].phase == Suspending {
        SuspendFits(policy, s, s.records[id], fates);
      }
    } else if id !in s.tombstones && !Open(s.records, resources.tenant) {
      var r := NewRecord(id, resources, actor, reason, at, policyName);
      CreateFits(policy, s, r, at);
      var p := Save(Note(s, id, Requested(actor, at)), r);
      GoodAfter(policy, s, p.s, id);
      SuspendFits(policy, p.s, p.r, fates);
      AdvancesTransitively(policy, s, p.s, SuspendAccess(p.s, p.r, fates).0, id);
    }
  }

  lemma ConfirmedFits(policy: Policy, r: Record, h: seq<Entry>, actor: string, e: Evidence, at: Instant)
    requires Fits(policy, r, h) && r.phase == Suspended
    requires actor != r.requestedBy && r.requestedAt <= at && Trustworthy(policy, e, at)
    ensures Fits(policy, Bumped(r.(phase := Grace, confirmedBy := Some(actor), confirmedAt := Some(at),
              graceEndsAt := Some(at + policy.gracePeriod), evidence := Some(e), lastFailed := None)), h + [Confirmed(actor, at, e)])
  {
    Extend(policy, h, Confirmed(actor, at, e));
  }

  // A decision is noted and saved on the current record.
  lemma DecisionDone(policy: Policy, s: State, r: Record, e: Entry, r': Record)
    requires Good(policy, s, r.id) && r.id in s.records && s.records[r.id] == r
    requires r'.id == r.id && r'.revision == r.revision && r'.resources == r.resources
    requires Fits(policy, Bumped(r'), LogOf(s, r.id) + [e])
    requires Position(e) >= Level(r) && Level(r) <= Level(r')
    ensures var p := Save(Note(s, r.id, e), r');
            p.Through? && p.r == Bumped(r') && CallDone(policy, s, p.s, r.id)
            && r.id in p.s.records && p.s.records[r.id] == Bumped(r')
  {
  }

  lemma ConfirmDone(policy: Policy, s: State, id: string, tenant: string, actor: string, e: Evidence,
          at: Instant, fates: Fates)
    requires Good(policy, s, id)
    ensures CallDone(policy, s, Confirm(s, policy, id, tenant, actor, e, at, fates).0, id)
  {
    Idle(policy, s, id);
    var exact := Exact(s, id, tenant);
    if exact.Some? {
      var r := exact.value;
      if actor != r.requestedBy && r.phase == Suspended && at >= r.requestedAt && Trustworthy(policy, e, at) {
        ConfirmedFits(policy, r, LogOf(s, id), actor, e, at);
        DecisionDone(policy, s, r, Confirmed(actor, at, e),
          r.(phase := Grace, confirmedBy := Some(actor), confirmedAt := Some(at),
             graceEndsAt := Some(at + policy.gracePeriod), evidence := Some(e), lastFailed := None));
      }
    }
  }

  function Passes(k: nat): seq<Entry>
    requires k <= |CHECKS|
  {
    seq(|CHECKS| - k, i requires 0 <= i < |CHECKS| - k => Ran(CHECKS[k + i], true))
  }

  lemma CheckFits(policy: Policy, r: Record, h: seq<Entry>, a: Action, ok: bool)
    requires Fits(policy, r, h) && r.phase == Grace && ActionPosition(a) == 4
    ensures Fits(policy, r, h + [Ran(a, ok)])
  {
    Extend(policy, h, Ran(a, ok));
  }

  lemma CheckNoted(policy: Policy, s: State, r: Record, a: Action, ok: bool)
    requires Good(policy, s, r.id) && r.id in s.records && s.records[r.id] == r && r.phase == Grace
    requires ActionPosition(a) == 4
    ensures CallDone(policy, s, Note(s, r.id, Ran(a, ok)), r.id)
    ensures Fits(policy, r, LogOf(s, r.id) + [Ran(a, ok)])
    ensures forall reply :: var p := SaveFailure(Note(s, r.id, Ran(a, ok)), r, a, reply);
              p == Halted(p.s, reply) && CallDone(policy, s, p.s, r.id)
  {
    CheckFits(policy, r, LogOf(s, r.id), a, ok);
    NoteAdvances(policy, s, r.id, Ran(a, ok));
    forall reply
      ensures var p := SaveFailure(Note(s, r.id, Ran(a, ok)), r, a, reply);
              p == Halted(p.s, reply) && CallDone(policy, s, p.s, r.id)
    {
      FailureAdvances(policy, s, r, a, Ran(a, ok), reply);
    }
  }

  lemma CallsCompose(policy: Policy, a: State, b: State, c: State, id: string)
    requires CallDone(policy, a, b, id) && CallDone(policy, b, c, id) && id in a.records && id in b.records
    ensures CallDone(policy, a, c, id)
  {
    AdvancesTransitively(policy, a, b, c, id);
  }

  lemma PassesFrom(k: nat)
    requires k < |CHECKS|
    ensures Passes(k) == [Ran(CHECKS[k], true)] + Passes(k + 1)
  {
  }

  lemma ChecksUnfold(s: State, r: Record, k: nat, fates: Fates)
    requires k < |CHECKS|
    ensures FateOf(fates, CHECKS[k]) == Succeeds ==>
              RunChecks(s, r, k, fates) == RunChecks(Note(s, r.id, Ran(CHECKS[k], true)), r, k + 1, fates)
    ensures FateOf(fates, CHECKS[k]) != Succeeds ==> RunChecks(s, r, k, fates).Halted?
  {
  }

  lemma NoteLog(s: State, id: string, e: Entry, rest: seq<Entry>)
    ensures LogOf(Note(s, id, e), id) + rest == LogOf(s, id) + ([e] + rest)
    ensures Note(s, id, e).records == s.records
  {
  }

  lemma {:induction false} ChecksLog(s: State, r: Record, k: nat, fates: Fates)
    requires k <= |CHECKS|
    ensures var p := RunChecks(s, r, k, fates);
            p.Through? ==> p.r == r && p.s.records == s.records && LogOf(p.s, r.id) == LogOf(s, r.id) + Passes(k)
    decreases |CHECKS| - k
  {
    if k == |CHECKS| {
      assert LogOf(s, r.id) + Passes(k) == LogOf(s, r.id);
    } else {
      ChecksUnfold(s, r, k, fates);
      if FateOf(fates, CHECKS[k]) == Succeeds {
        ChecksLog(Note(s, r.id, Ran(CHECKS[k], true)), r, k + 1, fates);
        PassesFrom(k);
        NoteLog(s, r.id, Ran(CHECKS[k], true), Passes(k + 1));
      }
    }
  }

  lemma {:induction false} ChecksDone(policy: Policy, s: State, r: Record, k: nat, fates: Fates)
    requires Good(policy, s, r.id) && r.id in s.records && s.records[r.id] == r && r.phase == Grace
    requires k <= |CHECKS|
    ensures CallDone(policy, s, RunChecks(s, r, k, fates).s, r.id)
    decreases |CHECKS| - k
  {
    Idle(policy, s, r.id);
    if k < |CHECKS| {
      var a := CHECKS[k];
      CheckNoted(policy, s, r, a, true);
      var s1 := Note(s, r.id, Ran(a, true));
      match FateOf(fates, a)
      case DiesBefore =>
      case DiesAfter =>
      case Succeeds =>
        CheckPassed(policy, s, s1, r);
        ChecksDone(policy, s1, r, k + 1, fates);
        CallsCompose(policy, s, s1, RunChecks(s1, r, k + 1, fates).s, r.id);
      case _ =>
        CheckNoted(policy, s, r, a, false);
    }
  }

  lemma CheckPassed(policy: Policy, s: State, s1: State, r: Record)
    requires CallDone(policy, s, s1, r.id) && s1.records == s.records && r.id in s.records && s.records[r.id] == r
    ensures Good(policy, s1, r.id) && r.id in s1.records && s1.records[r.id] == r
  {
  }

  lemma CancelledFits(policy: Policy, r: Record, h: seq<Entry>, g: seq<Entry>, actor: string, at: Instant)
    requires Fits(policy, r, h) && r.phase == Grace && h == g + Passes(0)
    requires r.graceEndsAt.Some? && at < r.graceEndsAt.value
    ensures Fits(policy, Bumped(r.(phase := Cancelled, cancelledBy := Some(actor), cancelledAt := Some(at), lastFailed := None)),
                 h + [Ran(Reactivate, true)])
  {
    CheckFits(policy, r, h, Reactivate, true);
    assert Passes(0) + [Ran(Reactivate, true)] == CANCELLATION;
    var h1 := h + [Ran(Reactivate, true)];
    assert h1 == g + CANCELLATION;
    assert h1[|h1| - 6..] == CANCELLATION;
  }

  lemma ReactivateDone(policy: Policy, s: State, r: Record, g: seq<Entry>, actor: string, at: Instant, fates: Fates)
    requires Good(policy, s, r.id) && r.id in s.records && s.records[r.id] == r && r.phase == Grace
    requires LogOf(s, r.id) == g + Passes(0) && r.graceEndsAt.Some? && at < r.graceEndsAt.value
    ensures CallDone(policy, s, ReactivateAndClose(s, r, actor, at, fates).0, r.id)
  {
    Idle(policy, s, r.id);
    CheckNoted(policy, s, r, Reactivate, true);
    CheckNoted(policy, s, r, Reactivate, false);
    CancelledFits(policy, r, LogOf(s, r.id), g, actor, at);
    DecisionDone(policy, s, r, Ran(Reactivate, true),
      r.(phase := Cancelled, cancelledBy := Some(actor), cancelledAt := Some(at), lastFailed := None));
  }

  lemma CheckedCancelDone(policy: Policy, s: State, r: Record, actor: string, at: Instant, fates: Fates)
    requires Good(policy, s, r.id) && r.id in s.records && s.records[r.id] == r && r.phase == Grace
    requires RunChecks(s, r, 0, fates).Through? && r.graceEndsAt.Some? && at < r.graceEndsAt.value
    ensures var p := RunChecks(s, r, 0, fates);
            CallDone(policy, s, ReactivateAndClose(p.s, p.r, actor, at, fates).0, r.id)
  {
    ChecksDone(policy, s, r, 0, fates);
    ChecksLog(s, r, 0, fates);
    var p := RunChecks(s, r, 0, fates);
    CheckPassed(policy, s, p.s, r);
    ReactivateDone(policy, p.s, r, LogOf(s, r.id), actor, at, fates);
    CallsCompose(policy, s, p.s, ReactivateAndClose(p.s, r, actor, at, fates).0, r.id);
  }

  lemma CancelDone(policy: Policy, s: State, id: string, tenant: string, actor: string, at: Instant, fates: Fates)
    requires Good(policy, s, id)
    ensures CallDone(policy, s, Cancel(s, id, tenant, actor, at, fates).0, id)
  {
    Idle(policy, s, id);
    var exact := Exact(s, id, tenant);
    if exact.Some? && exact.value.phase == Grace && exact.value.graceEndsAt.Some? && at < exact.value.graceEndsAt.value {
      var r := exact.value;
      if RunChecks(s, r, 0, fates).Through? {
        CheckedCancelDone(policy, s, r, actor, at, fates);
      } else {
        ChecksDone(policy, s, r, 0, fates);
      }
    }
  }

  lemma AdmittedFits(policy: Policy, r: Record, h: seq<Entry>, at: Instant)
    requires Fits(policy, r, h) && r.phase == Grace && r.graceEndsAt.Some? && at >= r.graceEndsAt.value
    ensures Fits(policy, Bumped(r.(phase := Finalizing, lastFailed := None)), h + [Admitted(at)])
  {
    var g := h + [Admitted(at)];
    forall c | 0 <= c < |h| && g[c].Confirmed? ensures at >= g[c].at + policy.gracePeriod {
      assert g[c] in h;
    }
    Extend(policy, h, Admitted(at));
  }

  lemma BuriedFits(policy: Policy, r: Record, h: seq<Entry>, at: Instant)
    requires Fits(policy, r, h) && r.phase == Finalizing && r.destruction == DESTRUCTION
    ensures TombstoneFits(policy, TombstoneFor(r, at), h + [Buried(at)])
  {
    Extend(policy, h, Buried(at));
  }

  lemma BuryDone(policy: Policy, s: State, r: Record, at: Instant, fates: Fates)
    requires Good(policy, s, r.id) && Holds(s, r, Destroy)
    ensures CallDone(policy, s, DestroyAndBury(s, r, at, fates).0, r.id)
  {
    StepsFit(policy, s, r, Destroy, 0, fates);
    var p := RunSteps(s, r, Destroy, 0, fates);
    if p.Through? {
      GoodAfter(policy, s, p.s, r.id);
      BuriedFits(policy, p.r, LogOf(p.s, r.id), at);
      BuryAdvances(policy, p.s, p.r, at);
      AdvancesTransitively(policy, s, p.s, Bury(p.s, p.r, at), r.id);
    }
  }

  function Bury(s: State, r: Record, at: Instant): State
    requires r.confirmedBy.Some?
  {
    var t := TombstoneFor(r, at);
    Note(s.(records := s.records - {r.id}, tombstones := s.tombstones[t.id := t]), r.id, Buried(at))
  }

  lemma BuryAdvances(policy: Policy, s: State, r: Record, at: Instant)
    requires Good(policy, s, r.id) && Holds(s, r, Destroy) && r.destruction == DESTRUCTION
    requires r.confirmedBy.Some? && TombstoneFits(policy, TombstoneFor(r, at), LogOf(s, r.id) + [Buried(at)])
    ensures Advances(policy, s, Bury(s, r, at), r.id) && r.id !in Bury(s, r, at).records
  {
  }

  lemma AdmitDone(policy: Policy, s: State, r: Record, at: Instant)
    requires Good(policy, s, r.id) && r.id in s.records && s.records[r.id] == r
    requires r.phase == Grace && r.graceEndsAt.Some? && at >= r.graceEndsAt.value
    ensures var p := Save(Note(s, r.id, Admitted(at)), r.(phase := Finalizing, lastFailed := None));
            p.Through? && p.r.id == r.id && CallDone(policy, s, p.s, r.id) && Good(policy, p.s, r.id) && Holds(p.s, p.r, Destroy)
  {
    AdmittedFits(policy, r, LogOf(s, r.id), at);
    DecisionDone(policy, s, r, Admitted(at), r.(phase := Finalizing, lastFailed := None));
  }

  lemma AdmitAndBuryDone(policy: Policy, s: State, r: Record, at: Instant, fates: Fates)
    requires Good(policy, s, r.id) && r.id in s.records && s.records[r.id] == r
    requires r.phase == Grace && r.graceEndsAt.Some? && at >= r.graceEndsAt.value
    ensures var p := Save(Note(s, r.id, Admitted(at)), r.(phase := Finalizing, lastFailed := None));
            p.Through? && CallDone(policy, s, DestroyAndBury(p.s, p.r, at, fates).0, r.id)
  {
    AdmitDone(policy, s, r, at);
    var p := Save(Note(s, r.id, Admitted(at)), r.(phase := Finalizing, lastFailed := None));
    BuryDone(policy, p.s, p.r, at, fates);
    CallsCompose(policy, s, p.s, DestroyAndBury(p.s, p.r, at, fates).0, r.id);
  }

  lemma FinalizeDone(policy: Policy, s: State, id: string, tenant: string, at: Instant, fates: Fates)
    requires Good(policy, s, id)
    ensures CallDone(policy, s, Finalize(s, id, tenant, at, fates).0, id)
  {
    Idle(policy, s, id);
    if id in s.records && id !in s.tombstones {
      var r := s.records[id];
      if r.phase == Finalizing {
        BuryDone(policy, s, r, at, fates);
      } else if r.phase == Grace && r.graceEndsAt.Some? && at >= r.graceEndsAt.value {
        AdmitAndBuryDone(policy, s, r, at, fates);
      }
    }
  }

  // ---------------------------------------------------------------------------
  // Runs
  // ---------------------------------------------------------------------------

  datatype Call =
    | RequestCall(id: string, resources: Resources, actor: string, reason: string, at: Instant, policyName: string, fates: Fates)
    | ConfirmCall(id: string, tenant: string, actor: string, evidence: Evidence, at: Instant, fates: Fates)
    | CancelCall(id: string, tenant: string, actor: string, at: Instant, fates: Fates)
    | FinalizeCall(id: string, tenant: string, at: Instant, fates: Fates)

  function Perform(policy: Policy, s: State, c: Call): State {
    match c
    case RequestCall(id, resources, actor, reason, at, policyName, fates) =>
      Request(s, id, resources, actor, reason, at, policyName, fates).0
    case ConfirmCall(id, tenant, actor, e, at, fates) => Confirm(s, policy, id, tenant, actor, e, at, fates).0
    case CancelCall(id, tenant, actor, at, fates) => Cancel(s, id, tenant, actor, at, fates).0
    case FinalizeCall(id, tenant, at, fates) => Finalize(s, id, tenant, at, fates).0
  }

  function Run(policy: Policy, s: State, calls: seq<Call>): State
    decreases |calls|
  {
    if calls == [] then s else Run(policy, Perform(policy, s, calls[0]), calls[1..])
  }

  const START := State(map[], map[], map[])

  // No tenant has two requests that are not cancelled.
  predicate OneOpenPerTenant(s: State) {
    OneOpen(s.records)
  }

  lemma PerformDone(policy: Policy, s: State, c: Call)
    requires Good(policy, s, c.id)
    ensures CallDone(policy, s, Perform(policy, s, c), c.id)
  {
    match c
    case RequestCall(id, resources, actor, reason, at, policyName, fates) =>
      RequestDone(policy, s, id, resources, actor, reason, at, policyName, fates);
    case ConfirmCall(id, tenant, actor, e, at, fates) => ConfirmDone(policy, s, id, tenant, actor, e, at, fates);
    case CancelCall(id, tenant, actor, at, fates) => CancelDone(policy, s, id, tenant, actor, at, fates);
    case FinalizeCall(id, tenant, at, fates) => FinalizeDone(policy, s, id, tenant, at, fates);
  }

  // A cancelled request, and a destroyed tenant's, is never touched again.
  lemma ClosedIsFinal(policy: Policy, s: State, c: Call)
    requires c.id !in s.records || c.id !in s.tombstones
    requires c.id in s.tombstones || (c.id in s.records && s.records[c.id].phase == Cancelled)
    ensures Perform(policy, s, c) == s
  {
  }

  lemma PerformKeeps(policy: Policy, s: State, c: Call)
    requires Inv(policy, s) && OneOpenPerTenant(s)
    ensures Inv(policy, Perform(policy, s, c)) && OneOpenPerTenant(Perform(policy, s, c))
  {
    var s' := Perform(policy, s, c);
    assert Good(policy, s, c.id);
    PerformDone(policy, s, c);
    GoodAfter(policy, s, s', c.id);
    forall id ensures Good(policy, s', id) {
      assert Good(policy, s, id);
      if id != c.id {
        ElsewhereAgrees(s, s', c.id, id);
      }
    }
    forall a, b | a in s'.records && b in s'.records && a != b ensures Apart(s'.records[a], s'.records[b]) {
      if a != c.id { ElsewhereAgrees(s, s', c.id, a); }
      if b != c.id { ElsewhereAgrees(s, s', c.id, b); }
      if c.id in s.records && s.records[c.id].phase == Cancelled {
        ClosedIsFinal(policy, s, c);
      }
    }
  }

  lemma {:induction false} RunKeeps(policy: Policy, s: State, calls: seq<Call>)
    requires Inv(policy, s) && OneOpenPerTenant(s)
    ensures Inv(policy, Run(policy, s, calls)) && OneOpenPerTenant(Run(policy, s, calls))
    decreases |calls|
  {
    if calls != [] {
      PerformKeeps(policy, s, calls[0]);
      RunKeeps(policy, Perform(policy, s, calls[0]), calls[1..]);
    }
  }

  lemma Reachable(policy: Policy, calls: seq<Call>)
    ensures Inv(policy, Run(policy, START, calls)) && OneOpenPerTenant(Run(policy, START, calls))
  {
    RunKeeps(policy, START, calls);
  }

  function StepAt(p: nat): Action
    requires 1 <= p <= 3 || 6 <= p <= 11
  {
    if p <= 3 then SUSPENSION[p - 1] else DESTRUCTION[p - 6]
  }

  lemma PassedAt(e: Entry, p: nat)
    requires Position(e) == p && Passed(e) && (1 <= p <= 3 || 6 <= p <= 11)
    ensures e == Ran(StepAt(p), true)
  {
  }

  lemma StepPassedBefore(h: seq<Entry>, j: nat, p: nat)
    requires Walk(h) && j < |h| && p < Position(h[j]) && (1 <= p <= 3 || 6 <= p <= 11)
    ensures Ran(StepAt(p), true) in h[..j]
  {
    var i := PassedBefore(h, j, p);
    PassedAt(h[i], p);
    assert h[..j][i] == h[i];
  }

  lemma GoodHistory(policy: Policy, s: State, id: string)
    requires Good(policy, s, id)
    ensures Walk(LogOf(s, id)) && Earned(policy, LogOf(s, id))
  {
  }

  predicate IsJustified(policy: Policy, h: seq<Entry>, c: nat, a: nat, j: nat) {
    && c < a < j < |h| && h[0].Requested? && h[c].Confirmed? && h[a].Admitted?
    && h[c].actor != h[0].actor && h[0].at <= h[c].at
    && h[c].evidence.complete && h[c].evidence.integrityVerified && h[c].evidence.verifiedAt <= h[c].at
    && (h[c].evidence.isBackup ==> 0 <= h[c].at - h[c].evidence.createdAt <= policy.backupMaxAge)
    && (!h[c].evidence.isBackup ==> h[c].evidence.explicitlyAccepted)
    && h[a].at >= h[c].at + policy.gracePeriod
    && (forall p | 1 <= p <= 3 :: Ran(StepAt(p), true) in h[..c])
    && (forall p | 6 <= p < Position(h[j]) && p <= 11 :: Ran(StepAt(p), true) in h[..j])
  }

  lemma JustifiedBy(policy: Policy, h: seq<Entry>, j: nat) returns (c: nat, a: nat)
    requires Walk(h) && Earned(policy, h) && j < |h| && Position(h[j]) >= 6
    ensures IsJustified(policy, h, c, a, j)
  {
    a := PassedBefore(h, j, 5);
    c := ConfirmedFirst(h, a);
    assert IsEarned(policy, h, a) && IsEarned(policy, h, c);
    forall p | 1 <= p <= 3 ensures Ran(StepAt(p), true) in h[..c] {
      StepPassedBefore(h, c, p);
    }
    forall p | 6 <= p < Position(h[j]) && p <= 11 ensures Ran(StepAt(p), true) in h[..j] {
      StepPassedBefore(h, j, p);
    }
  }

  // Whatever was destroyed was earned: all three suspension steps had succeeded, a second
  // operator had confirmed with trustworthy evidence, and a finalize call had come at or after
  // the end of the grace period - in that order - and so had every earlier destruction step.
  lemma DestructionIsEarned(policy: Policy, calls: seq<Call>, id: string, j: nat) returns (c: nat, a: nat)
    requires var h := LogOf(Run(policy, START, calls), id);
             j < |h| && h[j].Ran? && h[j].action in DESTRUCTION
    ensures IsJustified(policy, LogOf(Run(policy, START, calls), id), c, a, j)
  {
    ReachableHistory(policy, calls, id);
    var h := LogOf(Run(policy, START, calls), id);
    DestructionPosition(h[j].action);
    c, a := JustifiedBy(policy, h, j);
  }

  lemma ReachableHistory(policy: Policy, calls: seq<Call>, id: string)
    ensures var h := LogOf(Run(policy, START, calls), id); Walk(h) && Earned(policy, h)
  {
    Reachable(policy, calls);
    assert Good(policy, Run(policy, START, calls), id);
    GoodHistory(policy, Run(policy, START, calls), id);
  }

  lemma DestructionPosition(a: Action)
    requires a in DESTRUCTION
    ensures ActionPosition(a) >= 6
  {
  }

  // The steps of the fixed order as they lie in one history: the request, the three suspension
  // steps, the confirmation, the admission, the six destruction steps, the tombstone.
  predicate Milestones(h: seq<Entry>, at: seq<nat>) {
    && |at| == 13 && at[0] == 0 && at[12] + 1 == |h| && (forall k | 0 <= k < 13 :: at[k] < |h|)
    && (forall k | 0 < k < 13 :: at[k - 1] < at[k])
    && h[at[0]].Requested?
    && h[at[1]] == Ran(SuspendSessions, true)
    && h[at[2]] == Ran(BlockTokenIssuance, true)
    && h[at[3]] == Ran(RevokeCredentials, true)
    && h[at[4]].Confirmed? && h[at[5]].Admitted?
    && h[at[6]] == Ran(RemoveCompose, true)
    && h[at[7]] == Ran(RemoveVolume, true)
    && h[at[8]] == Ran(RemoveDatabase, true)
    && h[at[9]] == Ran(RemoveRoute, true)
    && h[at[10]] == Ran(RemoveSecrets, true)
    && h[at[11]] == Ran(PurgeRecords, true)
    && h[at[12]].Buried?
  }

  lemma {:induction false} DestructionMilestones(h: seq<Entry>) returns (at: seq<nat>)
    requires Walk(h) && h != [] && h[|h| - 1].Buried?
    ensures |at| == 8 && at[7] + 1 == |h| && (forall k | 0 <= k < 8 :: at[k] < |h|) && (forall k | 0 < k < 8 :: at[k - 1] < at[k])
    ensures h[at[0]].Admitted?
    ensures h[at[1]] == Ran(RemoveCompose, true) && h[at[2]] == Ran(RemoveVolume, true)
    ensures h[at[3]] == Ran(RemoveDatabase, true) && h[at[4]] == Ran(RemoveRoute, true)
    ensures h[at[5]] == Ran(RemoveSecrets, true) && h[at[6]] == Ran(PurgeRecords, true) && h[at[7]].Buried?
  {
    var i12 := |h| - 1;
    var i11 := PassedBefore(h, i12, 11);
    var i10 := PassedBefore(h, i11, 10);
    var i9 := PassedBefore(h, i10, 9);
    var i8 := PassedBefore(h, i9, 8);
    var i7 := PassedBefore(h, i8, 7);
    var i6 := PassedBefore(h, i7, 6);
    var i5 := PassedBefore(h, i6, 5);
    at := [i5, i6, i7, i8, i9, i10, i11, i12];
  }

  lemma {:induction false} SuspensionMilestones(h: seq<Entry>, j: nat) returns (at: seq<nat>)
    requires Walk(h) && j < |h| && h[j].Admitted?
    ensures |at| == 5 && at[0] == 0 && at[4] < j && (forall k | 0 <= k < 5 :: at[k] < |h|) && (forall k | 0 < k < 5 :: at[k - 1] < at[k])
    ensures h[at[0]].Requested? && h[at[1]] == Ran(SuspendSessions, true) && h[at[2]] == Ran(BlockTokenIssuance, true)
    ensures h[at[3]] == Ran(RevokeCredentials, true) && h[at[4]].Confirmed?
  {
    var i4 := ConfirmedFirst(h, j);
    var i3 := PassedBefore(h, i4, 3);
    var i2 := PassedBefore(h, i3, 2);
    var i1 := PassedBefore(h, i2, 1);
    at := [0, i1, i2, i3, i4];
  }

  lemma {:induction false} AllMilestones(h: seq<Entry>) returns (at: seq<nat>)
    requires Walk(h) && h != [] && h[|h| - 1].Buried?
    ensures Milestones(h, at)
  {
    var late := DestructionMilestones(h);
    var early := SuspensionMilestones(h, late[0]);
    at := early + late;
    forall k | 0 < k < 13 ensures at[k - 1] < at[k] {
      if k < 5 { assert early[k - 1] < early[k]; }
      if k > 5 { assert late[k - 6] < late[k - 5]; }
    }
  }

  // A tombstone means that every step of the fixed order was passed, one after the other, by a
  // confirmation of someone other than the requester and an admission after the grace period,
  // and nothing of the record is left.
  lemma TombstoneMeansAllSix(policy: Policy, calls: seq<Call>, id: string) returns (at: seq<nat>)
    requires id in Run(policy, START, calls).tombstones
    ensures id !in Run(policy, START, calls).records
    ensures var t, h := Run(policy, START, calls).tombstones[id], LogOf(Run(policy, START, calls), id);
            && Milestones(h, at)
            && h[at[0]].actor == t.requestedBy != t.confirmedBy == h[at[4]].actor
            && h[at[4]].at >= h[at[0]].at && h[at[5]].at >= h[at[4]].at + policy.gracePeriod
            && h[at[12]] == Buried(t.destroyedAt)
    ensures var h := LogOf(Run(policy, START, calls), id);
            forall i, j | 0 <= i < j < |h| :: Position(h[i]) <= Position(h[j])
  {
    Reachable(policy, calls);
    var s := Run(policy, START, calls);
    var h := LogOf(s, id);
    assert Good(policy, s, id);
    at := AllMilestones(h);
    forall i, j | 0 <= i < j < |h| ensures Position(h[i]) <= Position(h[j]) {
      NeverBackwards(h, i, j);
    }
    assert IsEarned(policy, h, at[4]) && IsEarned(policy, h, at[5]);
    assert h[at[4]] in h;
  }

  lemma {:induction false} RunGrows(policy: Policy, s: State, calls: seq<Call>, id: string)
    requires Inv(policy, s) && OneOpenPerTenant(s)
    ensures Grown(LogOf(s, id), LogOf(Run(policy, s, calls), id), LevelOf(s, id))
    decreases |calls|
  {
    if calls != [] {
      var c := calls[0];
      var s1 := Perform(policy, s, c);
      assert Good(policy, s, c.id);
      PerformDone(policy, s, c);
      if c.id != id { ElsewhereAgrees(s, s1, c.id, id); }
      PerformKeeps(policy, s, c);
      RunGrows(policy, s1, calls[1..], id);
      GrownTransitively(LogOf(s, id), LogOf(s1, id), LogOf(Run(policy, s1, calls[1..]), id), LevelOf(s, id), LevelOf(s1, id));
    }
  }

  lemma GrownTransitively(h: seq<Entry>, h': seq<Entry>, h'': seq<Entry>, level: nat, level': nat)
    requires Grown(h, h', level) && Grown(h', h'', level') && level <= level'
    ensures Grown(h, h'', level)
  {
    forall i | |h| <= i < |h''| ensures Position(h''[i]) >= level {
      if i < |h'| { assert h''[i] == h'[i]; }
    }
  }

  // Once a step is recorded, no later call ever runs it again.
  lemma RecordedStepNeverRunsAgain(policy: Policy, before: seq<Call>, after: seq<Call>, id: string, i: nat)
    requires id in Run(policy, START, before).records
    requires var h := LogOf(Run(policy, Run(policy, START, before), after), id);
             |LogOf(Run(policy, START, before), id)| <= i < |h| && h[i].Ran?
    ensures var r, h := Run(policy, START, before).records[id], LogOf(Run(policy, Run(policy, START, before), after), id);
            LogOf(Run(policy, START, before), id) <= h && h[i].action !in r.suspension + r.destruction
  {
    Reachable(policy, before);
    var s := Run(policy, START, before);
    assert Good(policy, s, id);
    RunGrows(policy, s, after, id);
    var r, h := s.records[id], LogOf(Run(policy, s, after), id);
    assert Position(h[i]) >= Level(r);
    RecordedLieBelow(r);
  }

  lemma RecordedLieBelow(r: Record)
    requires r.suspension <= SUSPENSION && r.destruction <= DESTRUCTION
    requires r.destruction != [] ==> r.phase == Finalizing
    ensures forall a | a in r.suspension :: ActionPosition(a) < Level(r)
    ensures forall a | a in r.destruction :: ActionPosition(a) < Level(r)
  {
    forall a | a in r.suspension ensures ActionPosition(a) < Level(r) {
      var k :| 0 <= k < |r.suspension| && r.suspension[k] == a;
      assert a == SUSPENSION[k];
    }
    forall a | a in r.destruction ensures ActionPosition(a) < Level(r) {
      var k :| 0 <= k < |r.destruction| && r.destruction[k] == a;
      assert a == DESTRUCTION[k];
    }
  }

  predicate Closed(s: State, id: string) {
    id in s.tombstones || (id in s.records && s.records[id].phase == Cancelled)
  }

  lemma {:induction false} ClosedForever(policy: Policy, s: State, calls: seq<Call>, id: string)
    requires Inv(policy, s) && OneOpenPerTenant(s) && Closed(s, id)
    ensures var s' := Run(policy, s, calls);
            && Closed(s', id) && LogOf(s', id) == LogOf(s, id)
            && (id in s.records ==> id in s'.records && s'.records[id] == s.records[id])
            && (id in s.tombstones ==> id in s'.tombstones && s'.tombstones[id] == s.tombstones[id])
    decreases |calls|
  {
    if calls != [] {
      var c := calls[0];
      var s1 := Perform(policy, s, c);
      assert Good(policy, s, c.id);
      assert Good(policy, s, id);
      if c.id == id {
        ClosedIsFinal(policy, s, c);
      } else {
        PerformDone(policy, s, c);
        ElsewhereAgrees(s, s1, c.id, id);
      }
      PerformKeeps(policy, s, c);
      ClosedForever(policy, s1, calls[1..], id);
    }
  }

  predicate NothingDestroyed(h: seq<Entry>) {
    forall e | e in h :: e.Ran? ==> e.action !in DESTRUCTION
  }

  lemma NothingDestroyedYet(h: seq<Entry>)
    requires h != [] && Walk(h) && Position(h[|h| - 1]) <= 5
    ensures NothingDestroyed(h)
  {
    forall e | e in h ensures e.Ran? ==> e.action !in DESTRUCTION {
      var i :| 0 <= i < |h| && h[i] == e;
      NeverBackwards(h, i, |h| - 1);
    }
  }

  lemma CancelledHistory(policy: Policy, s: State, id: string)
    requires Good(policy, s, id) && id in s.records && s.records[id].phase == Cancelled
    ensures EndsWith(LogOf(s, id), CANCELLATION) && NothingDestroyed(LogOf(s, id)) && CancelledInTime(s.records[id])
  {
    NothingDestroyedYet(LogOf(s, id));
  }

  // A cancelled request was cancelled within its grace period after all five checks passed, never had a destruction
  // action run for it, and never will.
  lemma CancelledIsNeverDestroyed(policy: Policy, before: seq<Call>, after: seq<Call>, id: string)
    requires id in Run(policy, START, before).records && Run(policy, START, before).records[id].phase == Cancelled
    ensures var s' := Run(policy, Run(policy, START, before), after);
            && id in s'.records && s'.records[id] == Run(policy, START, before).records[id]
            && EndsWith(LogOf(s', id), CANCELLATION) && NothingDestroyed(LogOf(s', id)) && CancelledInTime(s'.records[id])
  {
    Reachable(policy, before);
    var s := Run(policy, START, before);
    assert Good(policy, s, id);
    CancelledHistory(policy, s, id);
    ClosedForever(policy, s, after, id);
  }

  // When nothing fails, every step goes through.
  lemma {:induction false} StepsSucceed(policy: Policy, s: State, r: Record, part: Part, k: nat, fates: Fates)
    requires Good(policy, s, r.id) && Holds(s, r, part) && k <= |Order(part)|
    requires Completed(r, part) == Order(part)[..k] && fates.ofAction == map[]
    ensures var p := RunSteps(s, r, part, k, fates);
            p.Through? && StepsDone(policy, s, r, part, p) && p.r.confirmedBy == r.confirmedBy
            && p.r.requestedBy == r.requestedBy && p.r.requestedAt == r.requestedAt
    decreases |Order(part)| - k
  {
    if k == |Order(part)| {
      StepsFit(policy, s, r, part, k, fates);
    } else {
      RunFresh(s, r, part, k, fates);
      StepSucceeds(policy, s, r, part);
      var p := Save(Note(s, r.id, Ran(Order(part)[k], true)), Complete(r, part, Order(part)[k]));
      GoodAfter(policy, s, p.s, r.id);
      StepsSucceed(policy, p.s, p.r, part, k + 1, fates);
      StepsFit(policy, s, r, part, k, fates);
    }
  }

  lemma SuspendSucceeds(policy: Policy, s: State, r: Record, fates: Fates)
    requires Good(policy, s, r.id) && Holds(s, r, Suspend) && r.suspension == []
    requires fates == Fates(map[], false)
    ensures var s' := SuspendAccess(s, r, fates).0;
            && Good(policy, s', r.id) && r.id in s'.records
            && var r' := s'.records[r.id];
               r'.phase == Suspended && r'.requestedBy == r.requestedBy && r'.requestedAt == r.requestedAt && r'.resources == r.resources
  {
    SuspendFits(policy, s, r, fates);
    StepsSucceed(policy, s, r, Suspend, 0, fates);
    var p := RunSteps(s, r, Suspend, 0, fates);
    SuspendedFits(policy, p.r, LogOf(p.s, r.id));
    SaveCurrent(policy, p.s, p.r, p.r.(phase := Suspended, lastFailed := None));
  }

  const EARLY_POLICY := Policy(30, 10)
  const EARLY_RESOURCES := Resources("t", [])
  const EARLY_EVIDENCE := Evidence(true, "b", 0, 0, true, true, false)
  const EARLY_CALLS: seq<Call> := [
    RequestCall("r", EARLY_RESOURCES, "x", "why", 0, "p", Fates(map[], false)),
    ConfirmCall("r", "t", "y", EARLY_EVIDENCE, 1, Fates(map[], false)),
    FinalizeCall("r", "t", 31, Fates(map[], true)),
    FinalizeCall("r", "t", 2, Fates(map[], false))]

  lemma EarlyRequested()
    ensures var s := Perform(EARLY_POLICY, START, EARLY_CALLS[0]);
            && Good(EARLY_POLICY, s, "r") && "r" in s.records
            && var r := s.records["r"];
               r.phase == Suspended && r.requestedBy == "x" && r.requestedAt == 0 && r.resources == EARLY_RESOURCES
  {
    var new0 := NewRecord("r", EARLY_RESOURCES, "x", "why", 0, "p");
    CreateFits(EARLY_POLICY, START, new0, 0);
    var p := Save(Note(START, "r", Requested("x", 0)), new0);
    GoodAfter(EARLY_POLICY, START, p.s, "r");
    SuspendSucceeds(EARLY_POLICY, p.s, p.r, Fates(map[], false));
  }

  lemma EarlyConfirmed(s: State)
    requires Good(EARLY_POLICY, s, "r") && "r" in s.records
    requires var r := s.records["r"];
             r.phase == Suspended && r.requestedBy == "x" && r.requestedAt == 0 && r.resources == EARLY_RESOURCES
    ensures var s' := Perform(EARLY_POLICY, s, EARLY_CALLS[1]);
            && Good(EARLY_POLICY, s', "r") && "r" in s'.records
            && LogOf(s', "r") == LogOf(s, "r") + [Confirmed("y", 1, EARLY_EVIDENCE)]
            && var r := s'.records["r"];
               r.phase == Grace && r.graceEndsAt == Some(31) && r.confirmedBy == Some("y") && r.resources == EARLY_RESOURCES
  {
    ConfirmDone(EARLY_POLICY, s, "r", "t", "y", EARLY_EVIDENCE, 1, Fates(map[], false));
  }

  // A process that dies after the last destruction step leaves all six recorded.
  lemma DestroyThenDie(policy: Policy, s: State, r: Record, at: Instant, fates: Fates)
    requires Good(policy, s, r.id) && Holds(s, r, Destroy) && r.destruction == []
    requires fates == Fates(map[], true)
    ensures var s' := DestroyAndBury(s, r, at, fates).0;
            && Advances(policy, s, s', r.id) && r.id in s'.records
            && var r' := s'.records[r.id];
               r'.phase == Finalizing && r'.destruction == DESTRUCTION && r'.confirmedBy == r.confirmedBy && r'.resources == r.resources
  {
    StepsSucceed(policy, s, r, Destroy, 0, fates);
  }

  predicate AwaitingEnd(r: Record) {
    r.phase == Grace && r.graceEndsAt == Some(31) && r.confirmedBy == Some("y") && r.resources == EARLY_RESOURCES
  }

  lemma FinalizeAdmits(s: State, r: Record, at: Instant, fates: Fates)
    requires r.id in s.records && s.records[r.id] == r && r.id !in s.tombstones
    requires r.phase == Grace && r.graceEndsAt.Some? && at >= r.graceEndsAt.value
    ensures var p := Save(Note(s, r.id, Admitted(at)), r.(phase := Finalizing, lastFailed := None));
            && p.r == Bumped(r.(phase := Finalizing, lastFailed := None)) && LogOf(s, r.id) <= LogOf(p.s, r.id)
            && Finalize(s, r.id, r.resources.tenant, at, fates) == DestroyAndBury(p.s, p.r, at, fates)
  {
  }

  lemma EarlyAdmitted(s: State)
    requires Good(EARLY_POLICY, s, "r") && "r" in s.records && AwaitingEnd(s.records["r"])
    ensures var p := Save(Note(s, "r", Admitted(31)), s.records["r"].(phase := Finalizing, lastFailed := None));
            && p.Through? && Finalize(s, "r", "t", 31, Fates(map[], true)) == DestroyAndBury(p.s, p.r, 31, Fates(map[], true))
            && p.r.id == "r" && p.r.destruction == [] && p.r.confirmedBy == Some("y") && p.r.resources == EARLY_RESOURCES
            && Good(EARLY_POLICY, p.s, "r") && Holds(p.s, p.r, Destroy) && LogOf(s, "r") <= LogOf(p.s, "r")
  {
    var r := s.records["r"];
    assert r.id == "r" && r.destruction == [];
    AdmitDone(EARLY_POLICY, s, r, 31);
    FinalizeAdmits(s, r, 31, Fates(map[], true));
  }

  lemma EarlyDestroyed(s: State)
    requires Good(EARLY_POLICY, s, "r") && "r" in s.records && AwaitingEnd(s.records["r"])
    ensures var s' := Perform(EARLY_POLICY, s, EARLY_CALLS[2]);
            && Good(EARLY_POLICY, s', "r") && "r" in s'.records && LogOf(s, "r") <= LogOf(s', "r")
            && var r := s'.records["r"];
               r.phase == Finalizing && r.destruction == DESTRUCTION && r.confirmedBy == Some("y") && r.resources == EARLY_RESOURCES
  {
    EarlyAdmitted(s);
    var p := Save(Note(s, "r", Admitted(31)), s.records["r"].(phase := Finalizing, lastFailed := None));
    DestroyThenDie(EARLY_POLICY, p.s, p.r, 31, Fates(map[], true));
    GoodAfter(EARLY_POLICY, p.s, DestroyAndBury(p.s, p.r, 31, Fates(map[], true)).0, "r");
  }

  lemma EarlyBuried(s: State)
    requires Good(EARLY_POLICY, s, "r") && "r" in s.records && "r" !in s.tombstones
    requires var r := s.records["r"];
             r.phase == Finalizing && r.destruction == DESTRUCTION && r.confirmedBy == Some("y") && r.resources == EARLY_RESOURCES
    ensures var s' := Perform(EARLY_POLICY, s, EARLY_CALLS[3]);
            "r" in s'.tombstones && s'.tombstones["r"].destroyedAt == 2 && LogOf(s, "r") <= LogOf(s', "r")
  {
    assert s.records["r"].id == "r";
    BuryNow(EARLY_POLICY, s, s.records["r"], 2, Fates(map[], false));
    FinalizeKeepsLog(EARLY_POLICY, s, "r", "t", 2, Fates(map[], false));
  }

  lemma FinalizeKeepsLog(policy: Policy, s: State, id: string, tenant: string, at: Instant, fates: Fates)
    requires Good(policy, s, id)
    ensures LogOf(s, id) <= LogOf(Finalize(s, id, tenant, at, fates).0, id)
  {
    FinalizeDone(policy, s, id, tenant, at, fates);
  }

  lemma BuriedAt(policy: Policy, s: State, r: Record, at: Instant, fates: Fates)
    requires Good(policy, s, r.id) && Holds(s, r, Destroy)
    requires r.id in DestroyAndBury(s, r, at, fates).0.tombstones
    ensures DestroyAndBury(s, r, at, fates).0.tombstones[r.id].destroyedAt == at
  {
    StepsFit(policy, s, r, Destroy, 0, fates);
    GoodAfter(policy, s, RunSteps(s, r, Destroy, 0, fates).s, r.id);
  }

  lemma Deadline(policy: Policy, s: State, id: string)
    requires Good(policy, s, id) && id in s.records && PastConfirmation(s.records[id].phase)
    ensures var r := s.records[id];
            r.id == id && r.confirmedAt.Some? && r.graceEndsAt == Some(r.confirmedAt.value + policy.gracePeriod)
    ensures id !in s.tombstones
  {
  }

  predicate PastConfirmation(phase: Phase) {
    phase == Grace || phase == Finalizing
  }

  // Which branch of finalize can write a tombstone.
  lemma FinalizeBranch(s: State, id: string, tenant: string, at: Instant, fates: Fates)
    requires id in s.records && id !in s.tombstones && id in Finalize(s, id, tenant, at, fates).0.tombstones
    ensures var r := s.records[id];
            var p := Save(Note(s, id, Admitted(at)), r.(phase := Finalizing, lastFailed := None));
            || (r.phase == Finalizing && Finalize(s, id, tenant, at, fates) == DestroyAndBury(s, r, at, fates))
            || (r.phase == Grace && r.graceEndsAt.Some? && at >= r.graceEndsAt.value && p.Through?
                && Finalize(s, id, tenant, at, fates) == DestroyAndBury(p.s, p.r, at, fates))
  {
  }

  lemma WrittenAt(policy: Policy, s: State, id: string, tenant: string, at: Instant, fates: Fates)
    requires Good(policy, s, id) && id in s.records && id !in s.tombstones
    requires id in Finalize(s, id, tenant, at, fates).0.tombstones
    ensures Finalize(s, id, tenant, at, fates).0.tombstones[id].destroyedAt == at
    ensures PastConfirmation(s.records[id].phase)
    ensures s.records[id].phase == Grace ==> s.records[id].graceEndsAt.Some? && at >= s.records[id].graceEndsAt.value
  {
    var r := s.records[id];
    FinalizeBranch(s, id, tenant, at, fates);
    if r.phase == Grace {
      AdmitDone(policy, s, r, at);
      var p := Save(Note(s, id, Admitted(at)), r.(phase := Finalizing, lastFailed := None));
      BuriedAt(policy, p.s, p.r, at, fates);
    } else {
      BuriedAt(policy, s, r, at, fates);
    }
  }

  lemma NotYetBuried(policy: Policy, s: State, id: string)
    requires Good(policy, s, id) && id in s.records
    ensures id !in s.tombstones && s.records[id].id == id
  {
  }

  // The date on a tombstone, against the record `r` that the finalize call at `at` found.
  predicate DatedAsCalled(policy: Policy, r: Record, t: Tombstone, at: Instant) {
    && r.confirmedAt.Some? && r.graceEndsAt == Some(r.confirmedAt.value + policy.gracePeriod)
    && t.destroyedAt == at
    && (t.destroyedAt < r.graceEndsAt.value <==> r.phase == Finalizing && at < r.graceEndsAt.value)
    && (t.destroyedAt >= r.graceEndsAt.value <==> at >= r.graceEndsAt.value)
    && (r.phase == Grace || r.phase == Finalizing)
  }

  lemma Dated(policy: Policy, s: State, id: string, tenant: string, at: Instant, fates: Fates)
    requires Good(policy, s, id) && id in s.records && id in Finalize(s, id, tenant, at, fates).0.tombstones
    ensures DatedAsCalled(policy, s.records[id], Finalize(s, id, tenant, at, fates).0.tombstones[id], at)
  {
    NotYetBuried(policy, s, id);
    WrittenAt(policy, s, id, tenant, at, fates);
    Deadline(policy, s, id);
  }

  // When a finalize call writes the tombstone of a request, the tombstone bears the time of that
  // call; it predates the end of the grace period exactly when the call found the record already
  // finalizing and came before that end, both of which can be read before the call.
  lemma PredatesGraceExactly(policy: Policy, calls: seq<Call>, id: string, tenant: string, at: Instant, fates: Fates)
    requires id in Run(policy, START, calls).records
    requires id in Finalize(Run(policy, START, calls), id, tenant, at, fates).0.tombstones
    ensures var s := Run(policy, START, calls);
            DatedAsCalled(policy, s.records[id], Finalize(s, id, tenant, at, fates).0.tombstones[id], at)
  {
    Reachable(policy, calls);
    assert Good(policy, Run(policy, START, calls), id);
    Dated(policy, Run(policy, START, calls), id, tenant, at, fates);
  }

  // The destruction date on a tombstone can lie before the end of the grace period: a resumed
  // finalize call does not look at the clock again.
  lemma TombstoneCanPredateGrace()
    ensures var s := Run(EARLY_POLICY, START, EARLY_CALLS);
            "r" in s.tombstones && s.tombstones["r"].destroyedAt < 1 + EARLY_POLICY.gracePeriod
            && Confirmed("y", 1, EARLY_EVIDENCE) in LogOf(s, "r")
  {
    RunFour(EARLY_POLICY, START, EARLY_CALLS);
    EarlyRequested();
    var s1 := Perform(EARLY_POLICY, START, EARLY_CALLS[0]);
    EarlyConfirmed(s1);
    var s2 := Perform(EARLY_POLICY, s1, EARLY_CALLS[1]);
    EarlyDestroyed(s2);
    var s3 := Perform(EARLY_POLICY, s2, EARLY_CALLS[2]);
    EarlyBuried(s3);
    var s4 := Perform(EARLY_POLICY, s3, EARLY_CALLS[3]);
    assert LogOf(s2, "r")[|LogOf(s1, "r")|] == Confirmed("y", 1, EARLY_EVIDENCE);
    assert LogOf(s4, "r")[|LogOf(s1, "r")|] == Confirmed("y", 1, EARLY_EVIDENCE);
  }

  lemma RunFour(policy: Policy, s: State, calls: seq<Call>)
    requires |calls| == 4
    ensures Run(policy, s, calls)
         == Perform(policy, Perform(policy, Perform(policy, Perform(policy, s, calls[0]), calls[1]), calls[2]), calls[3])
  {
    var s1 := Perform(policy, s, calls[0]);
    var s2 := Perform(policy, s1, calls[1]);
    var s3 := Perform(policy, s2, calls[2]);
    assert Run(policy, s3, calls[3..]) == Run(policy, Perform(policy, s3, calls[3]), calls[4..]);
    assert Run(policy, s2, calls[2..]) == Run(policy, s3, calls[2..][1..]) && calls[2..][1..] == calls[3..];
    assert Run(policy, s1, calls[1..]) == Run(policy, s2, calls[1..][1..]) && calls[1..][1..] == calls[2..];
  }

  lemma BuryNow(policy: Policy, s: State, r: Record, at: Instant, fates: Fates)
    requires Good(policy, s, r.id) && Holds(s, r, Destroy) && r.destruction == DESTRUCTION && r.confirmedBy.Some?
    requires fates == Fates(map[], false)
    ensures var s' := DestroyAndBury(s, r, at, fates).0;
            r.id in s'.tombstones && s'.tombstones[r.id].destroyedAt == at
  {
    StepsSucceed(policy, s, r, Destroy, |DESTRUCTION|, fates);
    SkipRecorded(s, r, Destroy, 0, fates);
  }

  lemma {:induction false} SkipRecorded(s: State, r: Record, part: Part, k: nat, fates: Fates)
    requires k <= |Order(part)| && Completed(r, part) == Order(part)
    ensures RunSteps(s, r, part, k, fates) == Through(s, r)
    decreases |Order(part)| - k
  {
    if k < |Order(part)| {
      SkipRecorded(s, r, part, k + 1, fates);
    }
  }
}
