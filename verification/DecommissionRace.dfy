// The decommission service with calls that overlap: any number of callers, interleaved at every
// read and save of the store and at every action, each of which may stop at any point.
module DecommissionRace {
  import opened Common
  import opened Decommission

  type Caller = int

  // Where a caller stands between two of its atomic steps. A caller that is between calls has
  // no entry.
  datatype Pc =
    | RequestMissing(draft: Record)          // found no record
    | RequestUnknown(draft: Record)          // and no tombstone
    | Creating(draft: Record)                // and no open request of the tenant
    | Stepping(r: Record, part: Part, at: Instant)
    | SavingStep(p: Record, part: Part, at: Instant)
    | SavingLast(p: Record)
    | Reactivating(r: Record, actor: string, at: Instant)
    | FinalizeAsked(id: string, tenant: string, at: Instant)
    | Admitting(p: Record, at: Instant)

  // The request a caller is working on.
  function IdOf(pc: Pc): string {
    match pc
    case RequestMissing(draft) => draft.id
    case RequestUnknown(draft) => draft.id
    case Creating(draft) => draft.id
    case Stepping(r, _, _) => r.id
    case SavingStep(p, _, _) => p.id
    case SavingLast(p) => p.id
    case Reactivating(r, _, _) => r.id
    case FinalizeAsked(id, _, _) => id
    case Admitting(p, _) => p.id
  }

  // What the store went through for one request.
  datatype Mark = Saved(r: Record) | Entombed(t: Tombstone)

  // `ran` has every action ever attempted for a request, `went` those that succeeded.
  datatype World = World(
    records: map<string, Record>,
    tombstones: map<string, Tombstone>,
    callers: map<Caller, Pc>,
    history: map<string, seq<Mark>>,
    ran: set<(string, Action)>,
    went: set<(string, Action)>)

  const START := World(map[], map[], map[], map[], {}, {})

  function HistoryOf(w: World, id: string): seq<Mark> {
    if id in w.history then w.history[id] else []
  }

  function Leave(w: World, c: Caller): World {
    w.(callers := w.callers - {c})
  }

  function Move(w: World, c: Caller, pc: Pc): World {
    w.(callers := w.callers[c := pc])
  }

  // ---------------------------------------------------------------------------
  // The atomic steps
  // ---------------------------------------------------------------------------

  // One save_record: compare-and-swap, then on to `next` with the saved record.
  function Commit(w: World, c: Caller, p: Record, next: Option<Pc>): World {
    if !RevisionMatches(w.records, p) then Leave(w, c)
    else
      var w1 := w.(records := w.records[p.id := Bumped(p)],
                   history := w.history[p.id := HistoryOf(w, p.id) + [Saved(Bumped(p))]]);
      if next.None? then Leave(w1, c) else Move(w1, c, next.value)
  }

  function Noted(w: World, id: string, a: Action, ok: bool): World {
    w.(ran := w.ran + {(id, a)}, went := if ok then w.went + {(id, a)} else w.went)
  }

  function BeginRequest(w: World, c: Caller, draft: Record): World {
    if draft.id !in w.records then Move(w, c, RequestMissing(draft))
    else
      var r := w.records[draft.id];
      if SamePayload(r, draft.resources, draft.requestedBy, draft.reason, draft.policyName) && r.phase == Suspending
      then Move(w, c, Stepping(r, Suspend, 0))
      else Leave(w, c)
  }

  // The first step, in order, that is not recorded.
  function NextStep(part: Part, done: seq<Action>, k: nat): Option<Action>
    requires k <= |Order(part)|
    decreases |Order(part)| - k
  {
    if k == |Order(part)| then None
    else if Order(part)[k] in done then NextStep(part, done, k + 1)
    else Some(Order(part)[k])
  }

  function RunStep(w: World, c: Caller, r: Record, part: Part, at: Instant, ok: bool): World {
    match NextStep(part, Completed(r, part), 0)
    case None => w
    case Some(a) =>
      Move(Noted(w, r.id, a, ok), c, AfterStep(r, part, at, a, ok))
  }

  function AfterStep(r: Record, part: Part, at: Instant, a: Action, ok: bool): Pc {
    if ok then SavingStep(Complete(r, part, a), part, at) else SavingLast(r.(lastFailed := Some(a)))
  }

  // After the last step: the suspended state is saved, or the record gives way to a tombstone.
  function Close(w: World, c: Caller, r: Record, part: Part, at: Instant): World {
    if NextStep(part, Completed(r, part), 0).Some? then w
    else if part == Suspend then Move(w, c, SavingLast(r.(phase := Suspended, lastFailed := None)))
    else if r.confirmedBy.None? || !(r.id in w.records && w.records[r.id] == r) then Leave(w, c)
    else
      var t := TombstoneFor(r, at);
      Leave(w.(records := w.records - {r.id}, tombstones := w.tombstones[r.id := t],
               history := w.history[r.id := HistoryOf(w, r.id) + [Entombed(t)]]), c)
  }

  function BeginConfirm(policy: Policy, w: World, c: Caller, id: string, tenant: string, actor: string,
          e: Evidence, at: Instant, verified: bool): World {
    if id !in w.records || w.records[id].resources.tenant != tenant then Leave(w, c)
    else
      var r := w.records[id];
      if actor == r.requestedBy || r.phase != Suspended || at < r.requestedAt || !Trustworthy(policy, e, at) || !verified then Leave(w, c)
      else Move(w, c, SavingLast(
        r.(phase := Grace, confirmedBy := Some(actor), confirmedAt := Some(at),
           graceEndsAt := Some(at + policy.gracePeriod), evidence := Some(e), lastFailed := None)))
  }

  function BeginCancel(w: World, c: Caller, id: string, tenant: string, actor: string, at: Instant): World {
    if id !in w.records || w.records[id].resources.tenant != tenant then Leave(w, c)
    else
      var r := w.records[id];
      if r.phase != Grace || r.graceEndsAt.None? || at >= r.graceEndsAt.value then Leave(w, c)
      else Move(w, c, Reactivating(r, actor, at))
  }

  function ReadForFinalize(w: World, c: Caller, id: string, tenant: string, at: Instant): World {
    if id !in w.records || w.records[id].resources.tenant != tenant then Leave(w, c)
    else
      var r := w.records[id];
      if r.phase == Grace && r.graceEndsAt.Some? && at >= r.graceEndsAt.value then
        Move(w, c, Admitting(r.(phase := Finalizing, lastFailed := None), at))
      else if r.phase == Finalizing then Move(w, c, Stepping(r, Destroy, at))
      else Leave(w, c)
  }

  datatype Step =
    | AskRequest(c: Caller, draft: Record)
    | AskConfirm(c: Caller, id: string, tenant: string, actor: string, evidence: Evidence, at: Instant, verified: bool)
    | AskCancel(c: Caller, id: string, tenant: string, actor: string, at: Instant)
    | AskFinalize(c: Caller, id: string, tenant: string, at: Instant)
    | Advance(c: Caller, ok: bool)
    | CheckFails(c: Caller, a: Action)
    | Crash(c: Caller)

  predicate IsDraft(r: Record) {
    r == NewRecord(r.id, r.resources, r.requestedBy, r.reason, r.requestedAt, r.policyName)
  }

  // A caller between calls starts one with its first read.
  function Ask(policy: Policy, w: World, st: Step): World {
    if st.c in w.callers then w
    else match st
      case AskRequest(c, draft) => if IsDraft(draft) then BeginRequest(w, c, draft) else w
      case AskConfirm(c, id, tenant, actor, e, at, verified) => BeginConfirm(policy, w, c, id, tenant, actor, e, at, verified)
      case AskCancel(c, id, tenant, actor, at) => BeginCancel(w, c, id, tenant, actor, at)
      case AskFinalize(c, id, tenant, at) => if id in w.tombstones then w else Move(w, c, FinalizeAsked(id, tenant, at))
      case _ => w
  }

  // The next atomic step of a caller inside a call; `ok` says whether an action succeeds.
  function Continue(w: World, c: Caller, pc: Pc, ok: bool): World {
    match pc
    case RequestMissing(draft) => if draft.id in w.tombstones then Leave(w, c) else Move(w, c, RequestUnknown(draft))
    case RequestUnknown(draft) => if Open(w.records, draft.resources.tenant) then Leave(w, c) else Move(w, c, Creating(draft))
    case Creating(draft) => Commit(w, c, draft, Some(Stepping(Bumped(draft), Suspend, 0)))
    case Stepping(r, part, at) =>
      if NextStep(part, Completed(r, part), 0).Some? then RunStep(w, c, r, part, at, ok) else Close(w, c, r, part, at)
    case SavingStep(p, part, at) => Commit(w, c, p, Some(Stepping(Bumped(p), part, at)))
    case SavingLast(p) => Commit(w, c, p, None)
    case Reactivating(r, actor, at) =>
      var w1 := Noted(w, r.id, Reactivate, ok);
      if ok then Move(w1, c, SavingLast(r.(phase := Cancelled, cancelledBy := Some(actor), cancelledAt := Some(at), lastFailed := None)))
      else Move(w1, c, SavingLast(r.(lastFailed := Some(Reactivate))))
    case FinalizeAsked(id, tenant, at) => ReadForFinalize(w, c, id, tenant, at)
    case Admitting(p, at) => Commit(w, c, p, Some(Stepping(Bumped(p), Destroy, at)))
  }

  function Apply(policy: Policy, w: World, st: Step): World {
    match st
    case Advance(c, ok) => if c in w.callers then Continue(w, c, w.callers[c], ok) else w
    case CheckFails(c, a) =>
      if c in w.callers && w.callers[c].Reactivating? && a in CHECKS
      then Move(w, c, SavingLast(w.callers[c].r.(lastFailed := Some(a)))) else w
    case Crash(c) => Leave(w, c)
    case _ => Ask(policy, w, st)
  }

  function Run(policy: Policy, w: World, steps: seq<Step>): World
    decreases |steps|
  {
    if steps == [] then w else Run(policy, Apply(policy, w, steps[0]), steps[1..])
  }

  // ---------------------------------------------------------------------------
  // Chains
  // ---------------------------------------------------------------------------

  // One of the saves the protocol allows on top of record `a`.
  predicate Derives(policy: Policy, a: Record, p: Record) {
    && p.revision == a.revision && p.id == a.id && p.resources == a.resources && p.requestedBy == a.requestedBy
    && p.reason == a.reason && p.requestedAt == a.requestedAt && p.policyName == a.policyName
    && ((p.phase == Grace && a.phase == Suspended) ||
          (p.confirmedBy == a.confirmedBy && p.confirmedAt == a.confirmedAt
           && p.graceEndsAt == a.graceEndsAt && p.evidence == a.evidence))
    && (p.phase == Cancelled || (p.cancelledBy == a.cancelledBy && p.cancelledAt == a.cancelledAt))
    && (p.suspension == a.suspension ||
          (a.phase == Suspending == p.phase && p.suspension <= SUSPENSION && |p.suspension| == |a.suspension| + 1
           && a.suspension <= p.suspension))
    && (p.destruction == a.destruction ||
          (a.phase == Finalizing == p.phase && p.destruction <= DESTRUCTION && |p.destruction| == |a.destruction| + 1
           && a.destruction <= p.destruction))
    && PhaseDerives(policy, a, p)
  }

  predicate PhaseDerives(policy: Policy, a: Record, p: Record) {
    match p.phase
    case Suspending => a.phase == Suspending
    case Suspended => a.phase == Suspending && a.suspension == SUSPENSION
    case Grace =>
      || a.phase == Grace
      || (a.phase == Suspended && p.confirmedBy.Some? && p.confirmedBy.value != a.requestedBy
          && p.confirmedAt.Some? && p.confirmedAt.value >= a.requestedAt
          && p.evidence.Some? && Trustworthy(policy, p.evidence.value, p.confirmedAt.value)
          && p.graceEndsAt == Some(p.confirmedAt.value + policy.gracePeriod))
    case Cancelled => a.phase == Grace && p.cancelledAt.Some? && a.graceEndsAt.Some? && p.cancelledAt.value < a.graceEndsAt.value
    case Finalizing => a.phase == Grace || a.phase == Finalizing
  }

  // The i-th mark continues the chain: revision i + 1 saved on top of revision i, and a
  // tombstone only on top of a record with all six destruction steps.
  predicate Link(policy: Policy, h: seq<Mark>, i: nat)
    requires i < |h|
  {
    if i == 0 then h[0].Saved? && h[0].r.revision == 1 && IsDraft(h[0].r.(revision := 0))
    else
      && h[i - 1].Saved?
      && (if h[i].Saved? then h[i].r.revision == i + 1 && Derives(policy, h[i - 1].r, h[i].r.(revision := i))
          else h[i - 1].r.phase == Finalizing && h[i - 1].r.destruction == DESTRUCTION
               && h[i - 1].r.confirmedBy.Some? && h[i].t == TombstoneFor(h[i - 1].r, h[i].t.destroyedAt))
  }

  predicate Chain(policy: Policy, h: seq<Mark>) {
    forall i | 0 <= i < |h| :: Link(policy, h, i)
  }

  // A request call that read "no record, no tombstone, no open request" long ago saves its new
  // record although the request has been finalized since.
  predicate StaleCreate(w: World, st: Step) {
    && st.Advance? && st.c in w.callers && w.callers[st.c].Creating?
    && w.callers[st.c].draft.id in w.tombstones && w.callers[st.c].draft.id !in w.records
  }

  // The requests that a stale create brings back in a run.
  function Revived(policy: Policy, w: World, steps: seq<Step>): set<string>
    decreases |steps|
  {
    if steps == [] then {}
    else
      (if StaleCreate(w, steps[0]) then {w.callers[steps[0].c].draft.id} else {})
      + Revived(policy, Apply(policy, w, steps[0]), steps[1..])
  }

  // ---------------------------------------------------------------------------
  // The invariant
  // ---------------------------------------------------------------------------

  predicate StoreFits(w: World, id: string) {
    var h := HistoryOf(w, id);
    if h == [] then id !in w.records && id !in w.tombstones
    else if h[|h| - 1].Saved? then id in w.records && w.records[id] == h[|h| - 1].r && id !in w.tombstones && w.records[id].id == id
    else id !in w.records && id in w.tombstones && w.tombstones[id] == h[|h| - 1].t
  }

  // `r` was read from, or saved to, the store at some moment.
  predicate WasSaved(w: World, r: Record) {
    var h := HistoryOf(w, r.id);
    1 <= r.revision <= |h| && h[r.revision - 1] == Saved(r)
  }

  // `p` is about to be saved on top of a record that was the current one at some moment.
  predicate WillDerive(policy: Policy, w: World, p: Record) {
    var h := HistoryOf(w, p.id);
    1 <= p.revision <= |h| && h[p.revision - 1].Saved? && Derives(policy, h[p.revision - 1].r, p)
  }

  predicate StepsFit(r: Record) {
    && r.suspension <= SUSPENSION && r.destruction <= DESTRUCTION
    && (r.phase != Suspending ==> r.suspension == SUSPENSION)
    && (r.phase != Finalizing ==> r.destruction == [])
    && (r.phase == Grace || r.phase == Finalizing || r.phase == Cancelled ==> r.confirmedBy.Some?)
  }

  predicate Recorded(w: World, r: Record) {
    && StepsFit(r)
    && (forall a | a in r.suspension || a in r.destruction :: (r.id, a) in w.went)
  }

  predicate CallerFits(policy: Policy, w: World, pc: Pc) {
    match pc
    case RequestMissing(draft) => IsDraft(draft)
    case RequestUnknown(draft) => IsDraft(draft)
    case Creating(draft) => IsDraft(draft)
    case Stepping(r, part, at) => WasSaved(w, r) && Recorded(w, r) && r.phase == (if part == Suspend then Suspending else Finalizing)
    case SavingStep(p, part, at) => WillDerive(policy, w, p) && Recorded(w, p) && p.phase == (if part == Suspend then Suspending else Finalizing)
    case SavingLast(p) => WillDerive(policy, w, p) && Recorded(w, p)
    case Reactivating(r, actor, at) =>
      WasSaved(w, r) && Recorded(w, r) && r.phase == Grace && r.graceEndsAt.Some? && at < r.graceEndsAt.value
    case FinalizeAsked(id, tenant, at) => true
    case Admitting(p, at) => WillDerive(policy, w, p) && Recorded(w, p) && p.phase == Finalizing
  }

  predicate EverFinalizing(h: seq<Mark>) {
    exists i | 0 <= i < |h| :: h[i].Saved? && h[i].r.phase == Finalizing
  }

  predicate RequestFits(policy: Policy, w: World, id: string) {
    && Chain(policy, HistoryOf(w, id))
    && StoreFits(w, id)
    && (id in w.records ==> Recorded(w, w.records[id]))
    && (forall a | a in DESTRUCTION && (id, a) in w.ran :: EverFinalizing(HistoryOf(w, id)))
    && (id in w.tombstones ==> forall a | a in SUSPENSION || a in DESTRUCTION :: (id, a) in w.went)
  }

  ghost predicate Keyed(w: World) {
    forall id | id in w.records :: w.records[id].id == id
  }

  // What holds of every request but the revived ones, and of the callers working on them.
  ghost predicate Inv(policy: Policy, w: World, revived: set<string>) {
    && Keyed(w)
    && (forall id | id !in revived :: RequestFits(policy, w, id))
    && (forall c | c in w.callers && IdOf(w.callers[c]) !in revived :: CallerFits(policy, w, w.callers[c]))
  }

  // ---------------------------------------------------------------------------
  // Every step keeps the invariant
  // ---------------------------------------------------------------------------

  ghost predicate Extends(w: World, w': World) {
    && (forall id :: HistoryOf(w, id) <= HistoryOf(w', id))
    && w.ran <= w'.ran && w.went <= w'.went
  }

  lemma CallerStillFits(policy: Policy, w: World, w': World, pc: Pc)
    requires CallerFits(policy, w, pc) && Extends(w, w')
    ensures CallerFits(policy, w', pc)
  {
    match pc
    case Stepping(r, _, _) => assert HistoryOf(w, r.id) <= HistoryOf(w', r.id);
    case SavingStep(p, _, _) => assert HistoryOf(w, p.id) <= HistoryOf(w', p.id);
    case SavingLast(p) => assert HistoryOf(w, p.id) <= HistoryOf(w', p.id);
    case Reactivating(r, _, _) => assert HistoryOf(w, r.id) <= HistoryOf(w', r.id);
    case Admitting(p, _) => assert HistoryOf(w, p.id) <= HistoryOf(w', p.id);
    case _ =>
  }

  // What one step of caller `c` did to the world.
  ghost predicate Effect(policy: Policy, w: World, w': World, c: Caller, revived: set<string>) {
    && Extends(w, w') && Keyed(w')
    && (forall id | id !in revived :: RequestFits(policy, w', id))
    && (c in w'.callers && IdOf(w'.callers[c]) !in revived ==> CallerFits(policy, w', w'.callers[c]))
    && w'.callers - {c} == w.callers - {c}
  }

  lemma EffectKeeps(policy: Policy, w: World, w': World, c: Caller, revived: set<string>)
    requires Inv(policy, w, revived) && Effect(policy, w, w', c, revived)
    ensures Inv(policy, w', revived)
  {
    forall d | d in w'.callers && IdOf(w'.callers[d]) !in revived ensures CallerFits(policy, w', w'.callers[d]) {
      if d != c {
        assert d in w'.callers - {c};
        CallerStillFits(policy, w, w', w.callers[d]);
      }
    }
  }

  lemma LeaveEffect(policy: Policy, w: World, c: Caller, revived: set<string>)
    requires Inv(policy, w, revived)
    ensures Effect(policy, w, Leave(w, c), c, revived)
  {
    forall id | id !in revived ensures RequestFits(policy, Leave(w, c), id) {
      assert RequestFits(policy, w, id);
    }
  }

  lemma MoveEffect(policy: Policy, w: World, c: Caller, pc: Pc, revived: set<string>)
    requires Inv(policy, w, revived) && (IdOf(pc) !in revived ==> CallerFits(policy, w, pc))
    ensures Effect(policy, w, Move(w, c, pc), c, revived)
  {
    var w' := Move(w, c, pc);
    forall id | id !in revived ensures RequestFits(policy, w', id) {
      assert RequestFits(policy, w, id);
    }
    if IdOf(pc) !in revived { CallerStillFits(policy, w, w', pc); }
  }

  lemma NotedKeeps(policy: Policy, w: World, id: string, a: Action, ok: bool, revived: set<string>)
    requires Inv(policy, w, revived)
    requires a in DESTRUCTION && id !in revived ==> EverFinalizing(HistoryOf(w, id))
    ensures Inv(policy, Noted(w, id, a, ok), revived) && Extends(w, Noted(w, id, a, ok))
  {
    var w' := Noted(w, id, a, ok);
    forall i | i !in revived ensures RequestFits(policy, w', i) {
      assert RequestFits(policy, w, i);
    }
    forall c | c in w'.callers && IdOf(w'.callers[c]) !in revived ensures CallerFits(policy, w', w'.callers[c]) {
      CallerStillFits(policy, w, w', w.callers[c]);
    }
  }

  lemma AppendLink(policy: Policy, h: seq<Mark>, m: Mark)
    requires Chain(policy, h) && Link(policy, h + [m], |h|)
    ensures Chain(policy, h + [m])
  {
    var g := h + [m];
    forall i | 0 <= i < |g| ensures Link(policy, g, i) {
      if i < |h| { assert Link(policy, h, i); }
    }
  }

  lemma {:induction false} RevisionIsLength(policy: Policy, w: World, id: string)
    requires RequestFits(policy, w, id) && id in w.records
    ensures var h := HistoryOf(w, id);
            h != [] && h[|h| - 1] == Saved(w.records[id]) && w.records[id].revision == |h| && w.records[id].id == id
  {
    var h := HistoryOf(w, id);
    assert Link(policy, h, |h| - 1);
  }

  predicate MaySave(policy: Policy, w: World, p: Record) {
    Recorded(w, p) && (WillDerive(policy, w, p) || (IsDraft(p) && p.id !in w.tombstones))
  }

  // A save that the compare-and-swap lets through extends the chain.
  lemma SavedLinks(policy: Policy, w: World, p: Record)
    requires RequestFits(policy, w, p.id) && MaySave(policy, w, p) && RevisionMatches(w.records, p)
    ensures Chain(policy, HistoryOf(w, p.id) + [Saved(Bumped(p))])
    ensures p.id !in w.tombstones
  {
    var h := HistoryOf(w, p.id);
    if p.id in w.records {
      RevisionIsLength(policy, w, p.id);
    }
    assert Bumped(p).(revision := p.revision) == p;
    AppendLink(policy, h, Saved(Bumped(p)));
  }

  lemma CommitFits(policy: Policy, w: World, c: Caller, p: Record, next: Option<Pc>, id: string, revived: set<string>)
    requires Inv(policy, w, revived) && (p.id !in revived ==> MaySave(policy, w, p)) && RevisionMatches(w.records, p)
    requires id !in revived
    ensures RequestFits(policy, Commit(w, c, p, next), id)
  {
    assert RequestFits(policy, w, id);
    if id == p.id {
      SavedLinks(policy, w, p);
      var h := HistoryOf(w, id);
      if EverFinalizing(h) {
        var i :| 0 <= i < |h| && h[i].Saved? && h[i].r.phase == Finalizing;
        assert (h + [Saved(Bumped(p))])[i] == h[i];
      }
    }
  }

  lemma CommitEffect(policy: Policy, w: World, c: Caller, p: Record, next: Option<Pc>, revived: set<string>)
    requires Inv(policy, w, revived) && (p.id !in revived ==> MaySave(policy, w, p))
    requires next.Some? ==> next.value.Stepping? && next.value.r == Bumped(p)
                            && (p.id !in revived ==> p.phase == (if next.value.part == Suspend then Suspending else Finalizing))
    ensures Effect(policy, w, Commit(w, c, p, next), c, revived)
  {
    if !RevisionMatches(w.records, p) {
      LeaveEffect(policy, w, c, revived);
    } else {
      var w' := Commit(w, c, p, next);
      forall id | id !in revived ensures RequestFits(policy, w', id) {
        CommitFits(policy, w, c, p, next, id, revived);
      }
      if p.id !in revived {
        assert RequestFits(policy, w, p.id) && RequestFits(policy, w', p.id);
        RevisionIsLength(policy, w', p.id);
      }
    }
  }

  lemma BuryFits(policy: Policy, w: World, c: Caller, r: Record, at: Instant, revived: set<string>)
    requires Inv(policy, w, revived) && r.id in w.records && w.records[r.id] == r && r.id !in revived
    requires r.phase == Finalizing && r.destruction == DESTRUCTION
    ensures RequestFits(policy, Close(w, c, r, Destroy, at), r.id)
  {
    AllRecorded(Destroy);
    var h := HistoryOf(w, r.id);
    assert RequestFits(policy, w, r.id);
    RevisionIsLength(policy, w, r.id);
    AppendLink(policy, h, Entombed(TombstoneFor(r, at)));
    assert (h + [Entombed(TombstoneFor(r, at))])[|h| - 1] == Saved(r);
  }

  lemma BuryEffect(policy: Policy, w: World, c: Caller, r: Record, at: Instant, revived: set<string>)
    requires Inv(policy, w, revived) && NextStep(Destroy, r.destruction, 0).None?
    requires r.id !in revived ==> r.phase == Finalizing && r.destruction == DESTRUCTION
    ensures Effect(policy, w, Close(w, c, r, Destroy, at), c, revived)
  {
    var w' := Close(w, c, r, Destroy, at);
    if w' == Leave(w, c) {
      LeaveEffect(policy, w, c, revived);
    } else {
      forall id | id !in revived ensures RequestFits(policy, w', id) {
        assert RequestFits(policy, w, id);
        if id == r.id { BuryFits(policy, w, c, r, at, revived); }
      }
    }
  }

  lemma {:induction false} NextStepFrom(part: Part, done: seq<Action>, k: nat)
    requires done <= Order(part) && k <= |done|
    ensures NextStep(part, done, k) == if done == Order(part) then None else Some(Order(part)[|done|])
    decreases |done| - k
  {
    if k < |done| {
      assert done[k] == Order(part)[k];
      NextStepFrom(part, done, k + 1);
    } else if k < |Order(part)| {
      assert Order(part)[k] !in Order(part)[..k];
    }
  }

  lemma AllRecorded(part: Part)
    ensures NextStep(part, Order(part), 0).None?
  {
    NextStepFrom(part, Order(part), 0);
  }

  lemma EffectsCompose(policy: Policy, w: World, w1: World, w2: World, c: Caller, revived: set<string>)
    requires Extends(w, w1) && w1.callers == w.callers && Effect(policy, w1, w2, c, revived)
    ensures Effect(policy, w, w2, c, revived)
  {
    forall id ensures HistoryOf(w, id) <= HistoryOf(w2, id) {
      assert HistoryOf(w, id) <= HistoryOf(w1, id) && HistoryOf(w1, id) <= HistoryOf(w2, id);
    }
  }

  lemma SavedDerives(policy: Policy, w: World, r: Record, p: Record)
    requires WasSaved(w, r) && Derives(policy, r, p)
    ensures WillDerive(policy, w, p)
  {
  }

  predicate InPart(r: Record, part: Part) {
    r.phase == if part == Suspend then Suspending else Finalizing
  }

  lemma StepDerives(policy: Policy, r: Record, part: Part, a: Action)
    requires StepsFit(r) && InPart(r, part) && NextStep(part, Completed(r, part), 0) == Some(a)
    ensures Derives(policy, r, Complete(r, part, a)) && StepsFit(Complete(r, part, a))
    ensures Derives(policy, r, r.(lastFailed := Some(a)))
    ensures a in Order(part)
  {
    NextStepFrom(part, Completed(r, part), 0);
  }

  lemma StepMayRun(policy: Policy, w: World, r: Record, part: Part, a: Action)
    requires WasSaved(w, r) && StepsFit(r) && InPart(r, part) && NextStep(part, Completed(r, part), 0) == Some(a)
    ensures a in DESTRUCTION ==> EverFinalizing(HistoryOf(w, r.id))
  {
    NextStepFrom(part, Completed(r, part), 0);
    if part == Destroy {
      assert HistoryOf(w, r.id)[r.revision - 1].r.phase == Finalizing;
    }
  }

  lemma StepFits(policy: Policy, w: World, r: Record, part: Part, at: Instant, ok: bool)
    requires CallerFits(policy, w, Stepping(r, part, at)) && NextStep(part, Completed(r, part), 0).Some?
    ensures var a := NextStep(part, Completed(r, part), 0).value;
            CallerFits(policy, Noted(w, r.id, a, ok), AfterStep(r, part, at, a, ok))
  {
    var a := NextStep(part, Completed(r, part), 0).value;
    var w1 := Noted(w, r.id, a, ok);
    StepDerives(policy, r, part, a);
    SavedDerives(policy, w1, r, Complete(r, part, a));
    SavedDerives(policy, w1, r, r.(lastFailed := Some(a)));
    if ok { assert Recorded(w1, Complete(r, part, a)); }
  }

  lemma RunStepEffect(policy: Policy, w: World, c: Caller, r: Record, part: Part, at: Instant, ok: bool,
          revived: set<string>)
    requires Inv(policy, w, revived) && (r.id !in revived ==> CallerFits(policy, w, Stepping(r, part, at)))
    requires NextStep(part, Completed(r, part), 0).Some?
    ensures Effect(policy, w, RunStep(w, c, r, part, at, ok), c, revived)
  {
    var a := NextStep(part, Completed(r, part), 0).value;
    var w1 := Noted(w, r.id, a, ok);
    if r.id !in revived {
      StepMayRun(policy, w, r, part, a);
      StepFits(policy, w, r, part, at, ok);
    }
    NotedKeeps(policy, w, r.id, a, ok, revived);
    var pc := AfterStep(r, part, at, a, ok);
    MoveEffect(policy, w1, c, pc, revived);
    EffectsCompose(policy, w, w1, Move(w1, c, pc), c, revived);
  }

  lemma CloseEffect(policy: Policy, w: World, c: Caller, r: Record, part: Part, at: Instant, revived: set<string>)
    requires Inv(policy, w, revived) && (r.id !in revived ==> CallerFits(policy, w, Stepping(r, part, at)))
    requires NextStep(part, Completed(r, part), 0).None?
    ensures Effect(policy, w, Close(w, c, r, part, at), c, revived)
  {
    if r.id !in revived { NextStepFrom(part, Completed(r, part), 0); }
    if part == Suspend {
      var p := r.(phase := Suspended, lastFailed := None);
      if r.id !in revived { SavedDerives(policy, w, r, p); }
      MoveEffect(policy, w, c, SavingLast(p), revived);
    } else {
      BuryEffect(policy, w, c, r, at, revived);
    }
  }

  lemma ReactivatingEffect(policy: Policy, w: World, c: Caller, r: Record, actor: string, at: Instant, ok: bool,
          revived: set<string>)
    requires Inv(policy, w, revived) && (r.id !in revived ==> CallerFits(policy, w, Reactivating(r, actor, at)))
    ensures Effect(policy, w, Continue(w, c, Reactivating(r, actor, at), ok), c, revived)
  {
    var w1 := Noted(w, r.id, Reactivate, ok);
    NotedKeeps(policy, w, r.id, Reactivate, ok, revived);
    var p := if ok then r.(phase := Cancelled, cancelledBy := Some(actor), cancelledAt := Some(at), lastFailed := None)
             else r.(lastFailed := Some(Reactivate));
    if r.id !in revived { SavedDerives(policy, w1, r, p); }
    MoveEffect(policy, w1, c, SavingLast(p), revived);
    EffectsCompose(policy, w, w1, Move(w1, c, SavingLast(p)), c, revived);
  }

  // A record just read from the store was saved.
  lemma ReadFits(policy: Policy, w: World, id: string, revived: set<string>)
    requires Inv(policy, w, revived) && id in w.records && id !in revived
    ensures w.records[id].id == id && WasSaved(w, w.records[id]) && Recorded(w, w.records[id])
  {
    assert RequestFits(policy, w, id);
    RevisionIsLength(policy, w, id);
  }

  lemma ReadForFinalizeEffect(policy: Policy, w: World, c: Caller, id: string, tenant: string, at: Instant,
          revived: set<string>)
    requires Inv(policy, w, revived)
    ensures Effect(policy, w, ReadForFinalize(w, c, id, tenant, at), c, revived)
  {
    LeaveEffect(policy, w, c, revived);
    if id in w.records {
      var r := w.records[id];
      var p := r.(phase := Finalizing, lastFailed := None);
      if id !in revived { ReadFits(policy, w, id, revived); }
      if r.phase == Grace {
        if id !in revived { SavedDerives(policy, w, r, p); }
        MoveEffect(policy, w, c, Admitting(p, at), revived);
      } else if r.phase == Finalizing {
        MoveEffect(policy, w, c, Stepping(r, Destroy, at), revived);
      }
    }
  }

  lemma CreatingEffect(policy: Policy, w: World, c: Caller, draft: Record, revived: set<string>)
    requires Inv(policy, w, revived)
    requires draft.id !in revived ==> IsDraft(draft) && (draft.id in w.tombstones ==> draft.id in w.records)
    ensures Effect(policy, w, Commit(w, c, draft, Some(Stepping(Bumped(draft), Suspend, 0))), c, revived)
  {
    if draft.id !in revived { assert RequestFits(policy, w, draft.id); }
    CommitEffect(policy, w, c, draft, Some(Stepping(Bumped(draft), Suspend, 0)), revived);
  }

  // A stale create is accounted for.
  predicate Accounted(w: World, st: Step, revived: set<string>) {
    StaleCreate(w, st) ==> w.callers[st.c].draft.id in revived
  }

  lemma ContinueEffect(policy: Policy, w: World, c: Caller, ok: bool, revived: set<string>)
    requires Inv(policy, w, revived) && c in w.callers && Accounted(w, Advance(c, ok), revived)
    ensures Effect(policy, w, Continue(w, c, w.callers[c], ok), c, revived)
  {
    assert IdOf(w.callers[c]) !in revived ==> CallerFits(policy, w, w.callers[c]);
    match w.callers[c]
    case RequestMissing(draft) =>
      LeaveEffect(policy, w, c, revived);
      MoveEffect(policy, w, c, RequestUnknown(draft), revived);
    case RequestUnknown(draft) =>
      LeaveEffect(policy, w, c, revived);
      MoveEffect(policy, w, c, Creating(draft), revived);
    case Creating(draft) => CreatingEffect(policy, w, c, draft, revived);
    case Stepping(r, part, at) =>
      if NextStep(part, Completed(r, part), 0).Some? {
        RunStepEffect(policy, w, c, r, part, at, ok, revived);
      } else {
        CloseEffect(policy, w, c, r, part, at, revived);
      }
    case SavingStep(p, part, at) => CommitEffect(policy, w, c, p, Some(Stepping(Bumped(p), part, at)), revived);
    case SavingLast(p) => CommitEffect(policy, w, c, p, None, revived);
    case Reactivating(r, actor, at) => ReactivatingEffect(policy, w, c, r, actor, at, ok, revived);
    case FinalizeAsked(id, tenant, at) => ReadForFinalizeEffect(policy, w, c, id, tenant, at, revived);
    case Admitting(p, at) => CommitEffect(policy, w, c, p, Some(Stepping(Bumped(p), Destroy, at)), revived);
  }

  lemma AskRequestEffect(policy: Policy, w: World, c: Caller, draft: Record, revived: set<string>)
    requires Inv(policy, w, revived) && IsDraft(draft)
    ensures Effect(policy, w, BeginRequest(w, c, draft), c, revived)
  {
    LeaveEffect(policy, w, c, revived);
    MoveEffect(policy, w, c, RequestMissing(draft), revived);
    if draft.id in w.records {
      if draft.id !in revived { ReadFits(policy, w, draft.id, revived); }
      if w.records[draft.id].phase == Suspending {
        MoveEffect(policy, w, c, Stepping(w.records[draft.id], Suspend, 0), revived);
      }
    }
  }

  lemma AskConfirmEffect(policy: Policy, w: World, c: Caller, id: string, tenant: string, actor: string, e: Evidence,
          at: Instant, verified: bool, revived: set<string>)
    requires Inv(policy, w, revived)
    ensures Effect(policy, w, BeginConfirm(policy, w, c, id, tenant, actor, e, at, verified), c, revived)
  {
    LeaveEffect(policy, w, c, revived);
    if id in w.records {
      var r := w.records[id];
      if actor != r.requestedBy && r.phase == Suspended && at >= r.requestedAt && Trustworthy(policy, e, at) {
        var p := r.(phase := Grace, confirmedBy := Some(actor), confirmedAt := Some(at),
                    graceEndsAt := Some(at + policy.gracePeriod), evidence := Some(e), lastFailed := None);
        if id !in revived {
          ReadFits(policy, w, id, revived);
          SavedDerives(policy, w, r, p);
        }
        MoveEffect(policy, w, c, SavingLast(p), revived);
      }
    }
  }

  lemma AskCancelEffect(policy: Policy, w: World, c: Caller, id: string, tenant: string, actor: string, at: Instant,
          revived: set<string>)
    requires Inv(policy, w, revived)
    ensures Effect(policy, w, BeginCancel(w, c, id, tenant, actor, at), c, revived)
  {
    LeaveEffect(policy, w, c, revived);
    if id in w.records {
      var r := w.records[id];
      if id !in revived { ReadFits(policy, w, id, revived); }
      if r.phase == Grace && r.graceEndsAt.Some? && at < r.graceEndsAt.value {
        MoveEffect(policy, w, c, Reactivating(r, actor, at), revived);
      }
    }
  }

  lemma AskEffect(policy: Policy, w: World, st: Step, revived: set<string>)
    requires Inv(policy, w, revived)
    ensures Ask(policy, w, st) == w || Effect(policy, w, Ask(policy, w, st), st.c, revived)
  {
    match st
    case AskRequest(c, draft) => if IsDraft(draft) { AskRequestEffect(policy, w, c, draft, revived); }
    case AskConfirm(c, id, tenant, actor, e, at, verified) =>
      AskConfirmEffect(policy, w, c, id, tenant, actor, e, at, verified, revived);
    case AskCancel(c, id, tenant, actor, at) => AskCancelEffect(policy, w, c, id, tenant, actor, at, revived);
    case AskFinalize(c, id, tenant, at) => MoveEffect(policy, w, c, FinalizeAsked(id, tenant, at), revived);
    case _ =>
  }

  lemma CheckFailsEffect(policy: Policy, w: World, c: Caller, a: Action, revived: set<string>)
    requires Inv(policy, w, revived) && c in w.callers && w.callers[c].Reactivating?
    ensures Effect(policy, w, Move(w, c, SavingLast(w.callers[c].r.(lastFailed := Some(a)))), c, revived)
  {
    var r := w.callers[c].r;
    if r.id !in revived {
      assert CallerFits(policy, w, w.callers[c]);
      SavedDerives(policy, w, r, r.(lastFailed := Some(a)));
    }
    MoveEffect(policy, w, c, SavingLast(r.(lastFailed := Some(a))), revived);
  }

  lemma ApplyKeeps(policy: Policy, w: World, st: Step, revived: set<string>)
    requires Inv(policy, w, revived) && Accounted(w, st, revived)
    ensures Inv(policy, Apply(policy, w, st), revived)
  {
    var w' := Apply(policy, w, st);
    match st
    case Advance(c, ok) =>
      if c in w.callers {
        ContinueEffect(policy, w, c, ok, revived);
        EffectKeeps(policy, w, w', c, revived);
      }
    case CheckFails(c, a) =>
      if w' != w {
        CheckFailsEffect(policy, w, c, a, revived);
        EffectKeeps(policy, w, w', c, revived);
      }
    case Crash(c) =>
      LeaveEffect(policy, w, c, revived);
      EffectKeeps(policy, w, w', c, revived);
    case _ =>
      AskEffect(policy, w, st, revived);
      if w' != w { EffectKeeps(policy, w, w', st.c, revived); }
  }

  lemma {:induction false} RunKeeps(policy: Policy, w: World, steps: seq<Step>, revived: set<string>)
    requires Inv(policy, w, revived) && Revived(policy, w, steps) <= revived
    ensures Inv(policy, Run(policy, w, steps), revived)
    decreases |steps|
  {
    if steps != [] {
      ApplyKeeps(policy, w, steps[0], revived);
      RunKeeps(policy, Apply(policy, w, steps[0]), steps[1..], revived);
    }
  }

  // ---------------------------------------------------------------------------
  // The results
  // ---------------------------------------------------------------------------

  lemma StepAppends(policy: Policy, w: World, st: Step, id: string)
    ensures HistoryOf(w, id) <= HistoryOf(Apply(policy, w, st), id)
  {
  }

  lemma {:induction false} RunAppends(policy: Policy, w: World, steps: seq<Step>, id: string)
    ensures HistoryOf(w, id) <= HistoryOf(Run(policy, w, steps), id)
    decreases |steps|
  {
    if steps != [] {
      StepAppends(policy, w, steps[0], id);
      RunAppends(policy, Apply(policy, w, steps[0]), steps[1..], id);
    }
  }

  lemma BrokenStaysBroken(policy: Policy, h: seq<Mark>, g: seq<Mark>)
    requires h <= g && Chain(policy, g)
    ensures Chain(policy, h)
  {
    forall i | 0 <= i < |h| ensures Link(policy, h, i) {
      assert Link(policy, g, i);
    }
  }

  // A stale create saves a new record on top of a tombstone.
  lemma StaleCreateBreaks(policy: Policy, w: World, st: Step, revived: set<string>)
    requires Inv(policy, w, revived) && StaleCreate(w, st) && w.callers[st.c].draft.id !in revived
    ensures !Chain(policy, HistoryOf(Apply(policy, w, st), w.callers[st.c].draft.id))
  {
    var draft := w.callers[st.c].draft;
    var h := HistoryOf(w, draft.id);
    assert RequestFits(policy, w, draft.id) && CallerFits(policy, w, w.callers[st.c]);
    var g := HistoryOf(Apply(policy, w, st), draft.id);
    assert g == h + [Saved(Bumped(draft))];
    assert !Link(policy, g, |h|);
  }

  // The first stale create of a request breaks its chain for good.
  lemma {:induction false} RevivedBreaks(policy: Policy, w: World, steps: seq<Step>, id: string, revived: set<string>)
    requires Inv(policy, w, revived) && id !in revived && id in Revived(policy, w, steps)
    ensures !Chain(policy, HistoryOf(Run(policy, w, steps), id))
    decreases |steps|
  {
    var w1 := Apply(policy, w, steps[0]);
    var now := if StaleCreate(w, steps[0]) then {w.callers[steps[0].c].draft.id} else {};
    if id in now {
      StaleCreateBreaks(policy, w, steps[0], revived);
      RunAppends(policy, w1, steps[1..], id);
      if Chain(policy, HistoryOf(Run(policy, w, steps), id)) {
        BrokenStaysBroken(policy, HistoryOf(w1, id), HistoryOf(Run(policy, w, steps), id));
      }
    } else {
      MoreRevived(policy, w, revived, now);
      ApplyKeeps(policy, w, steps[0], revived + now);
      RevivedBreaks(policy, w1, steps[1..], id, revived + now);
    }
  }

  lemma MoreRevived(policy: Policy, w: World, revived: set<string>, more: set<string>)
    requires Inv(policy, w, revived)
    ensures Inv(policy, w, revived + more)
  {
  }

  lemma StartFits(policy: Policy)
    ensures Inv(policy, START, {})
  {
  }

  lemma RunFits(policy: Policy, steps: seq<Step>)
    ensures Inv(policy, Run(policy, START, steps), Revived(policy, START, steps))
  {
    StartFits(policy);
    MoreRevived(policy, START, {}, Revived(policy, START, steps));
    assert {} + Revived(policy, START, steps) == Revived(policy, START, steps);
    RunKeeps(policy, START, steps, Revived(policy, START, steps));
  }

  // However calls interleave, fail and crash: compare-and-swap makes the saves of a request one
  // chain, with the revision rising by one per save, exactly when no request call creates its
  // record after its tombstone was written. Other requests play no part in it.
  lemma ChainsExactly(policy: Policy, steps: seq<Step>, id: string)
    ensures Chain(policy, HistoryOf(Run(policy, START, steps), id)) <==> id !in Revived(policy, START, steps)
  {
    RunFits(policy, steps);
    if id !in Revived(policy, START, steps) {
      assert RequestFits(policy, Run(policy, START, steps), id);
    } else {
      StartFits(policy);
      RevivedBreaks(policy, START, steps, id, {});
    }
  }

  function Rank(phase: Phase): nat {
    match phase
    case Suspending => 0
    case Suspended => 1
    case Grace => 2
    case _ => 3
  }

  // Suspending, suspended, grace, then either cancelled, which ends the chain, or finalizing and
  // then nothing but finalizing and the tombstone.
  lemma {:induction false} ChainOrder(policy: Policy, h: seq<Mark>, i: nat, j: nat)
    requires Chain(policy, h) && i < j < |h|
    ensures h[0].Saved? && h[0].r.phase == Suspending
    ensures h[i].Saved? && h[i].r.phase != Cancelled
    ensures h[j].Saved? ==> Rank(h[i].r.phase) <= Rank(h[j].r.phase) && Rank(h[j].r.phase) <= Rank(h[i].r.phase) + (j - i)
    ensures h[j].Saved? ==> h[j].r.requestedBy == h[i].r.requestedBy && h[j].r.resources == h[i].r.resources
    ensures h[j].Entombed? ==> j == |h| - 1
    ensures h[i].r.phase == Finalizing ==> h[j].Entombed? || h[j].r.phase == Finalizing
    decreases j
  {
    assert Link(policy, h, j) && Link(policy, h, 0);
    if j + 1 < |h| { assert Link(policy, h, j + 1); }
    if i + 1 < j {
      ChainOrder(policy, h, i, j - 1);
    }
  }
}
