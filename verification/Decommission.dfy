// Tenant decommissioning: request and suspend, confirm by a second operator, cancel during the
// grace period or finalize after it. Records are saved by compare-and-swap on `revision`, and
// every call can fail or die part way and be made again.
//
// This file is the service with calls that do not overlap; module DecommissionRace lets them.
module Decommission {
  import opened Common

  type Instant = int

  datatype Action =
    | SuspendSessions | BlockTokenIssuance | RevokeCredentials
    | RemoveCompose | RemoveVolume | RemoveDatabase | RemoveRoute | RemoveSecrets | PurgeRecords
    | VerifyRoute | VerifySchema | VerifyIsolation | VerifyCredentials | VerifyHealth | Reactivate
    | VerifyEvidence

  const SUSPENSION: seq<Action> := [SuspendSessions, BlockTokenIssuance, RevokeCredentials]
  const DESTRUCTION: seq<Action> :=
    [RemoveCompose, RemoveVolume, RemoveDatabase, RemoveRoute, RemoveSecrets, PurgeRecords]
  const CHECKS: seq<Action> := [VerifyRoute, VerifySchema, VerifyIsolation, VerifyCredentials, VerifyHealth]

  datatype Phase = Suspending | Suspended | Grace | Finalizing | Cancelled

  datatype Resources = Resources(tenant: string, targets: seq<string>)

  datatype Evidence = Evidence(
    isBackup: bool,
    artifact: string,
    createdAt: Instant,
    verifiedAt: Instant,
    integrityVerified: bool,
    complete: bool,
    explicitlyAccepted: bool)

  datatype Record = Record(
    id: string,
    resources: Resources,
    requestedBy: string,
    reason: string,
    requestedAt: Instant,
    policyName: string,
    phase: Phase,
    suspension: seq<Action>,
    confirmedBy: Option<string>,
    confirmedAt: Option<Instant>,
    graceEndsAt: Option<Instant>,
    evidence: Option<Evidence>,
    destruction: seq<Action>,
    cancelledBy: Option<string>,
    cancelledAt: Option<Instant>,
    lastFailed: Option<Action>,
    revision: nat)

  datatype Tombstone = Tombstone(id: string, tenant: string, requestedBy: string, confirmedBy: string, destroyedAt: Instant)

  datatype Policy = Policy(gracePeriod: int, backupMaxAge: int)

  // ---------------------------------------------------------------------------
  // The store
  // ---------------------------------------------------------------------------

  predicate RevisionMatches(records: map<string, Record>, r: Record) {
    if r.id in records then records[r.id].revision == r.revision else r.revision == 0
  }

  function Bumped(r: Record): Record {
    r.(revision := r.revision + 1)
  }

  predicate Open(records: map<string, Record>, tenant: string) {
    exists id | id in records :: records[id].resources.tenant == tenant && records[id].phase != Cancelled
  }

  predicate Apart(r: Record, q: Record) {
    r.resources.tenant == q.resources.tenant ==> r.phase == Cancelled || q.phase == Cancelled
  }

  predicate OneOpen(records: map<string, Record>) {
    forall a, b | a in records && b in records && a != b :: Apart(records[a], records[b])
  }

  // ---------------------------------------------------------------------------
  // What each call does
  // ---------------------------------------------------------------------------

  // The history of one request: decisions at the moment they are saved, and the calls made
  // through the injected ports with whether they came back without raising.
  datatype Entry =
    | Requested(actor: string, at: Instant)
    | Ran(action: Action, ok: bool)
    | Confirmed(actor: string, at: Instant, evidence: Evidence)
    | Admitted(at: Instant)
    | Buried(at: Instant)

  datatype State = State(
    records: map<string, Record>,
    tombstones: map<string, Tombstone>,
    log: map<string, seq<Entry>>)

  function LogOf(s: State, id: string): seq<Entry> {
    if id in s.log then s.log[id] else []
  }

  function Note(s: State, id: string, e: Entry): State {
    s.(log := s.log[id := LogOf(s, id) + [e]])
  }

  // What happens when the process reaches a port call: it can come back, answer no (only a
  // check can), raise, or the process can die just before the call, just after it took effect,
  // or after it raised and before that is saved.
  datatype Fate = Succeeds | Refuses | Raises | DiesBefore | DiesAfter | RaisesAndDies

  datatype Fates = Fates(ofAction: map<Action, Fate>, diesBeforeClosing: bool)

  function FateOf(fates: Fates, a: Action): Fate {
    if a in fates.ofAction then fates.ofAction[a] else Succeeds
  }

  datatype Reply = Accepted(record: Record) | Destroyed(tombstone: Tombstone) | Conflict | NotReady | Failed(action: Action) | Died

  datatype Progress = Through(s: State, r: Record) | Halted(s: State, reply: Reply)

  function Save(s: State, r: Record): Progress {
    if RevisionMatches(s.records, r) then Through(s.(records := s.records[r.id := Bumped(r)]), Bumped(r))
    else Halted(s, Conflict)
  }

  function SaveFailure(s: State, r: Record, a: Action, reply: Reply): Progress {
    var p := Save(s, r.(lastFailed := Some(a)));
    if p.Through? then Halted(p.s, reply) else p
  }

  datatype Part = Suspend | Destroy

  function Order(part: Part): seq<Action> {
    if part == Suspend then SUSPENSION else DESTRUCTION
  }

  function Completed(r: Record, part: Part): seq<Action> {
    if part == Suspend then r.suspension else r.destruction
  }

  function Complete(r: Record, part: Part, a: Action): Record {
    var done := if part == Suspend then r.(suspension := r.suspension + [a]) else r.(destruction := r.destruction + [a]);
    done.(lastFailed := None)
  }

  // The ordered steps from the k-th on: steps already recorded are skipped, each new one is
  // saved before the next begins.
  function RunSteps(s: State, r: Record, part: Part, k: nat, fates: Fates): Progress
    requires k <= |Order(part)|
    decreases |Order(part)| - k
  {
    if k == |Order(part)| then Through(s, r)
    else
      var a := Order(part)[k];
      if a in Completed(r, part) then RunSteps(s, r, part, k + 1, fates)
      else match FateOf(fates, a)
        case DiesBefore => Halted(s, Died)
        case DiesAfter => Halted(Note(s, r.id, Ran(a, true)), Died)
        case RaisesAndDies => Halted(Note(s, r.id, Ran(a, false)), Died)
        case Succeeds =>
          var p := Save(Note(s, r.id, Ran(a, true)), Complete(r, part, a));
          if p.Through? then RunSteps(p.s, p.r, part, k + 1, fates) else p
        case _ => SaveFailure(Note(s, r.id, Ran(a, false)), r, a, Failed(a))
  }

  function Answer(p: Progress): (State, Reply) {
    if p.Through? then (p.s, Accepted(p.r)) else (p.s, p.reply)
  }

  function SuspendAccess(s: State, r: Record, fates: Fates): (State, Reply) {
    var p := RunSteps(s, r, Suspend, 0, fates);
    if p.Halted? then (p.s, p.reply)
    else if fates.diesBeforeClosing then (p.s, Died)
    else Answer(Save(p.s, p.r.(phase := Suspended, lastFailed := None)))
  }

  function NewRecord(id: string, resources: Resources, actor: string, reason: string, at: Instant,
          policyName: string): Record {
    Record(id, resources, actor, reason, at, policyName, Suspending, [], None, None, None, None, [], None, None, None, 0)
  }

  predicate SamePayload(r: Record, resources: Resources, actor: string, reason: string, policyName: string) {
    r.resources == resources && r.requestedBy == actor && r.reason == reason && r.policyName == policyName
  }

  function Request(s: State, id: string, resources: Resources, actor: string, reason: string, at: Instant,
          policyName: string, fates: Fates): (State, Reply) {
    if id in s.records then
      var r := s.records[id];
      if !SamePayload(r, resources, actor, reason, policyName) then (s, Conflict)
      else if r.phase != Suspending then (s, Accepted(r))
      else SuspendAccess(s, r, fates)
    else if id in s.tombstones || Open(s.records, resources.tenant) then (s, Conflict)
    else
      var p := Save(Note(s, id, Requested(actor, at)), NewRecord(id, resources, actor, reason, at, policyName));
      if p.Halted? then (s, p.reply) else SuspendAccess(p.s, p.r, fates)
  }

  function Exact(s: State, id: string, tenant: string): Option<Record> {
    if id in s.records && s.records[id].resources.tenant == tenant then Some(s.records[id]) else None
  }

  predicate Trustworthy(policy: Policy, e: Evidence, now: Instant) {
    && e.complete && e.integrityVerified
    && (if e.isBackup then e.createdAt <= now <= e.createdAt + policy.backupMaxAge else e.explicitlyAccepted)
    && e.verifiedAt <= now
  }

  function Confirm(s: State, policy: Policy, id: string, tenant: string, actor: string, e: Evidence,
          at: Instant, fates: Fates): (State, Reply) {
    match Exact(s, id, tenant)
    case None => (s, Conflict)
    case Some(r) =>
      if actor == r.requestedBy then (s, Conflict)
      else if r.phase == Grace then
        if r.confirmedBy == Some(actor) && r.evidence == Some(e) then (s, Accepted(r)) else (s, Conflict)
      else if r.phase != Suspended then (s, Conflict)
      else if at < r.requestedAt then (s, Conflict)
      else if !Trustworthy(policy, e, at) then (s, NotReady)
      else match FateOf(fates, VerifyEvidence)
        case Succeeds =>
          Answer(Save(Note(s, id, Confirmed(actor, at, e)),
            r.(phase := Grace, confirmedBy := Some(actor), confirmedAt := Some(at),
               graceEndsAt := Some(at + policy.gracePeriod), evidence := Some(e), lastFailed := None)))
        case Refuses => (s, NotReady)
        case Raises => (s, Failed(VerifyEvidence))
        case _ => (s, Died)
  }

  function RunChecks(s: State, r: Record, k: nat, fates: Fates): Progress
    requires k <= |CHECKS|
    decreases |CHECKS| - k
  {
    if k == |CHECKS| then Through(s, r)
    else
      var a := CHECKS[k];
      match FateOf(fates, a)
      case Succeeds => RunChecks(Note(s, r.id, Ran(a, true)), r, k + 1, fates)
      case Refuses => SaveFailure(Note(s, r.id, Ran(a, false)), r, a, NotReady)
      case Raises => SaveFailure(Note(s, r.id, Ran(a, false)), r, a, Failed(a))
      case DiesBefore => Halted(s, Died)
      case DiesAfter => Halted(Note(s, r.id, Ran(a, true)), Died)
      case RaisesAndDies => Halted(Note(s, r.id, Ran(a, false)), Died)
  }

  function ReactivateAndClose(s: State, r: Record, actor: string, at: Instant, fates: Fates): (State, Reply) {
    match FateOf(fates, Reactivate)
    case Succeeds =>
      Answer(Save(Note(s, r.id, Ran(Reactivate, true)),
        r.(phase := Cancelled, cancelledBy := Some(actor), cancelledAt := Some(at), lastFailed := None)))
    case DiesBefore => (s, Died)
    case DiesAfter => (Note(s, r.id, Ran(Reactivate, true)), Died)
    case RaisesAndDies => (Note(s, r.id, Ran(Reactivate, false)), Died)
    case _ => Answer(SaveFailure(Note(s, r.id, Ran(Reactivate, false)), r, Reactivate, Failed(Reactivate)))
  }

  function Cancel(s: State, id: string, tenant: string, actor: string, at: Instant, fates: Fates): (State, Reply) {
    match Exact(s, id, tenant)
    case None => (s, Conflict)
    case Some(r) =>
      if r.phase == Cancelled then (s, Accepted(r))
      else if r.phase != Grace then (s, Conflict)
      else if r.graceEndsAt.None? || at >= r.graceEndsAt.value then (s, Conflict)
      else
        var p := RunChecks(s, r, 0, fates);
        if p.Halted? then (p.s, p.reply) else ReactivateAndClose(p.s, p.r, actor, at, fates)
  }

  function TombstoneFor(r: Record, at: Instant): Tombstone
    requires r.confirmedBy.Some?
  {
    Tombstone(r.id, r.resources.tenant, r.requestedBy, r.confirmedBy.value, at)
  }

  function DestroyAndBury(s: State, r: Record, at: Instant, fates: Fates): (State, Reply) {
    var p := RunSteps(s, r, Destroy, 0, fates);
    if p.Halted? then (p.s, p.reply)
    else if p.r.confirmedBy.None? then (p.s, Conflict)
    else if fates.diesBeforeClosing then (p.s, Died)
    else if !(p.r.id in p.s.records && p.s.records[p.r.id] == p.r) then (p.s, Conflict)
    else
      var t := TombstoneFor(p.r, at);
      (Note(p.s.(records := p.s.records - {p.r.id}, tombstones := p.s.tombstones[t.id := t]), p.r.id, Buried(at)),
       Destroyed(t))
  }

  function Finalize(s: State, id: string, tenant: string, at: Instant, fates: Fates): (State, Reply) {
    if id in s.tombstones then
      if s.tombstones[id].tenant != tenant then (s, Conflict) else (s, Destroyed(s.tombstones[id]))
    else match Exact(s, id, tenant)
      case None => (s, Conflict)
      case Some(r) =>
        if r.phase == Grace then
          if r.graceEndsAt.None? || at < r.graceEndsAt.value then (s, NotReady)
          else
            var p := Save(Note(s, id, Admitted(at)), r.(phase := Finalizing, lastFailed := None));
            if p.Halted? then (s, p.reply) else DestroyAndBury(p.s, p.r, at, fates)
        else if r.phase != Finalizing then (s, Conflict)
        else DestroyAndBury(s, r, at, fates)
  }

}
