// One open request per tenant when calls overlap: what the service's own check gives, and what
// the database's index adds to it.
module DecommissionOpen {
  import opened Common
  import opened Decommission
  import opened DecommissionRace
  import opened DecommissionStale

  // The record a caller is about to save.
  function ToSave(pc: Pc): Option<Record> {
    match pc
    case Creating(draft) => Some(draft)
    case SavingStep(p, _, _) => Some(p)
    case SavingLast(p) => Some(p)
    case Admitting(p, _) => Some(p)
    case _ => None
  }

  // Another request of the tenant is open.
  predicate OpenBeside(records: map<string, Record>, p: Record) {
    exists id | id in records && id != p.id :: records[id].resources.tenant == p.resources.tenant && records[id].phase != Cancelled
  }

  // A save leaves an open record beside another open one of the tenant.
  predicate CrowdedSave(w: World, st: Step) {
    && st.Advance? && st.c in w.callers && ToSave(w.callers[st.c]).Some?
    && var p := ToSave(w.callers[st.c]).value;
       RevisionMatches(w.records, p) && p.phase != Cancelled && OpenBeside(w.records, p)
  }

  predicate NoCrowdedSave(policy: Policy, w: World, steps: seq<Step>)
    decreases |steps|
  {
    steps == [] || (!CrowdedSave(w, steps[0]) && NoCrowdedSave(policy, Apply(policy, w, steps[0]), steps[1..]))
  }

  predicate AlwaysOneOpen(policy: Policy, w: World, steps: seq<Step>)
    decreases |steps|
  {
    OneOpen(w.records) && (steps == [] || AlwaysOneOpen(policy, Apply(policy, w, steps[0]), steps[1..]))
  }

  lemma SaveAddsOne(records: map<string, Record>, p: Record)
    requires OneOpen(records)
    ensures OneOpen(records[p.id := Bumped(p)]) <==> p.phase == Cancelled || !OpenBeside(records, p)
  {
    var records' := records[p.id := Bumped(p)];
    if p.phase != Cancelled && OpenBeside(records, p) {
      var id :| id in records && id != p.id && records[id].resources.tenant == p.resources.tenant && records[id].phase != Cancelled;
      assert !Apart(records'[id], records'[p.id]);
    } else {
      forall a, b | a in records' && b in records' && a != b ensures Apart(records'[a], records'[b]) {
        if a != p.id && b != p.id { assert Apart(records[a], records[b]); }
      }
    }
  }

  lemma RemovalKeepsOneOpen(records: map<string, Record>, id: string)
    requires OneOpen(records)
    ensures OneOpen(records - {id})
  {
    var records' := records - {id};
    forall a, b | a in records' && b in records' && a != b ensures Apart(records'[a], records'[b]) {
      assert Apart(records[a], records[b]);
    }
  }

  lemma CommitAddsOne(w: World, c: Caller, p: Record, next: Option<Pc>)
    requires OneOpen(w.records)
    ensures OneOpen(Commit(w, c, p, next).records) <==>
            !(RevisionMatches(w.records, p) && p.phase != Cancelled && OpenBeside(w.records, p))
  {
    SaveAddsOne(w.records, p);
  }

  lemma StepsKeepOneOpen(w: World, c: Caller, r: Record, part: Part, at: Instant, ok: bool)
    requires OneOpen(w.records)
    ensures OneOpen(Continue(w, c, Stepping(r, part, at), ok).records)
  {
    RemovalKeepsOneOpen(w.records, r.id);
  }

  lemma OthersSaveNothing(policy: Policy, w: World, st: Step)
    requires !st.Advance?
    ensures Apply(policy, w, st).records == w.records
  {
  }

  lemma StepKeepsOneOpen(policy: Policy, w: World, st: Step)
    requires OneOpen(w.records)
    ensures OneOpen(Apply(policy, w, st).records) <==> !CrowdedSave(w, st)
  {
    if !st.Advance? {
      OthersSaveNothing(policy, w, st);
    } else if st.c in w.callers {
      match w.callers[st.c]
      case Creating(draft) => CommitAddsOne(w, st.c, draft, Some(Stepping(Bumped(draft), Suspend, 0)));
      case SavingStep(p, part, at) => CommitAddsOne(w, st.c, p, Some(Stepping(Bumped(p), part, at)));
      case SavingLast(p) => CommitAddsOne(w, st.c, p, None);
      case Admitting(p, at) => CommitAddsOne(w, st.c, p, Some(Stepping(Bumped(p), Destroy, at)));
      case Stepping(r, part, at) => StepsKeepOneOpen(w, st.c, r, part, at, st.ok);
      case _ =>
    }
  }

  lemma {:induction false} RunKeepsOneOpen(policy: Policy, w: World, steps: seq<Step>)
    requires OneOpen(w.records)
    ensures AlwaysOneOpen(policy, w, steps) <==> NoCrowdedSave(policy, w, steps)
    decreases |steps|
  {
    if steps != [] {
      StepKeepsOneOpen(policy, w, steps[0]);
      if !CrowdedSave(w, steps[0]) { RunKeepsOneOpen(policy, Apply(policy, w, steps[0]), steps[1..]); }
    }
  }

  // With the reference store, in which a save checks only its own record: a tenant never has two
  // open requests exactly if no save leaves an open record beside another open one.
  lemma OneOpenExactly(policy: Policy, steps: seq<Step>)
    ensures AlwaysOneOpen(policy, START, steps) <==> NoCrowdedSave(policy, START, steps)
  {
    RunKeepsOneOpen(policy, START, steps);
  }

  // The database has a unique index over the open requests of a tenant: a crowded save, insert or
  // update, ends in a conflict, as if the call had stopped before it.
  function Indexed(policy: Policy, w: World, steps: seq<Step>): seq<Step>
    decreases |steps|
  {
    if steps == [] then []
    else
      var st := if CrowdedSave(w, steps[0]) then Crash(steps[0].c) else steps[0];
      [st] + Indexed(policy, Apply(policy, w, st), steps[1..])
  }

  lemma {:induction false} IndexedIsNeverCrowded(policy: Policy, w: World, steps: seq<Step>)
    ensures NoCrowdedSave(policy, w, Indexed(policy, w, steps))
    ensures NoCrowdedSave(policy, w, steps) ==> Indexed(policy, w, steps) == steps
    decreases |steps|
  {
    if steps != [] {
      var st := if CrowdedSave(w, steps[0]) then Crash(steps[0].c) else steps[0];
      IndexedIsNeverCrowded(policy, Apply(policy, w, st), steps[1..]);
      var rest := Indexed(policy, Apply(policy, w, st), steps[1..]);
      assert ([st] + rest)[1..] == rest;
    }
  }

  // With the index no interleaving gives a tenant two open requests, and runs that never do are
  // left as they are.
  lemma IndexKeepsOneOpen(policy: Policy, steps: seq<Step>)
    ensures AlwaysOneOpen(policy, START, Indexed(policy, START, steps))
    ensures AlwaysOneOpen(policy, START, steps) ==> Indexed(policy, START, steps) == steps
  {
    IndexedIsNeverCrowded(policy, START, steps);
    OneOpenExactly(policy, Indexed(policy, START, steps));
    OneOpenExactly(policy, steps);
  }

  // ---------------------------------------------------------------------------
  // Creates alone
  // ---------------------------------------------------------------------------

  // A request call that saw no open request of its tenant creates its record beside one that has
  // been created since.
  predicate CrowdedCreate(w: World, st: Step) {
    CrowdedSave(w, st) && w.callers[st.c].Creating?
  }

  predicate NoCrowdedCreate(policy: Policy, w: World, steps: seq<Step>)
    decreases |steps|
  {
    steps == [] || (!CrowdedCreate(w, steps[0]) && NoCrowdedCreate(policy, Apply(policy, w, steps[0]), steps[1..]))
  }

  // A save on top of a record is on top of an open one of the same tenant.
  lemma SaveSucceeds(policy: Policy, w: World, p: Record)
    requires Inv(policy, w, {}) && WillDerive(policy, w, p) && RevisionMatches(w.records, p)
    ensures p.id in w.records && p.resources == w.records[p.id].resources && w.records[p.id].phase != Cancelled
  {
    assert RequestFits(policy, w, p.id);
    if p.id in w.records { RevisionIsLength(policy, w, p.id); }
  }

  lemma NoneBeside(records: map<string, Record>, p: Record)
    requires OneOpen(records) && p.id in records && p.resources == records[p.id].resources && records[p.id].phase != Cancelled
    ensures !OpenBeside(records, p)
  {
    forall id | id in records && id != p.id
      ensures records[id].resources.tenant != p.resources.tenant || records[id].phase == Cancelled
    {
      assert Apart(records[id], records[p.id]);
    }
  }

  lemma OnlyCreatesCrowd(policy: Policy, w: World, st: Step)
    requires Inv(policy, w, {}) && OneOpen(w.records)
    ensures CrowdedSave(w, st) ==> CrowdedCreate(w, st)
  {
    if st.Advance? && st.c in w.callers && ToSave(w.callers[st.c]).Some? && !w.callers[st.c].Creating? {
      var p := ToSave(w.callers[st.c]).value;
      assert CallerFits(policy, w, w.callers[st.c]);
      if RevisionMatches(w.records, p) {
        SaveSucceeds(policy, w, p);
        NoneBeside(w.records, p);
      }
    }
  }

  lemma {:induction false} CreatesSufficeFrom(policy: Policy, w: World, steps: seq<Step>)
    requires Inv(policy, w, {}) && OneOpen(w.records) && Revived(policy, w, steps) == {}
    ensures NoCrowdedCreate(policy, w, steps) ==> NoCrowdedSave(policy, w, steps)
    decreases |steps|
  {
    if steps != [] && !CrowdedCreate(w, steps[0]) {
      OnlyCreatesCrowd(policy, w, steps[0]);
      StepKeepsOneOpen(policy, w, steps[0]);
      ApplyKeeps(policy, w, steps[0], {});
      CreatesSufficeFrom(policy, Apply(policy, w, steps[0]), steps[1..]);
    }
  }

  lemma {:induction false} CreatesAreSaves(policy: Policy, w: World, steps: seq<Step>)
    ensures NoCrowdedSave(policy, w, steps) ==> NoCrowdedCreate(policy, w, steps)
    decreases |steps|
  {
    if steps != [] { CreatesAreSaves(policy, Apply(policy, w, steps[0]), steps[1..]); }
  }

  // Where no request is created after its tombstone, only a create can be crowded.
  lemma CreatesSuffice(policy: Policy, steps: seq<Step>)
    requires Revived(policy, START, steps) == {}
    ensures AlwaysOneOpen(policy, START, steps) <==> NoCrowdedCreate(policy, START, steps)
  {
    StartFits(policy);
    OneOpenExactly(policy, steps);
    CreatesSufficeFrom(policy, START, steps);
    CreatesAreSaves(policy, START, steps);
  }

  // ---------------------------------------------------------------------------
  // A crowded create does happen
  // ---------------------------------------------------------------------------

  const ANOTHER_DRAFT := NewRecord("s", Resources("t", []), "x", "why", 0, "p")

  const CROWDED_RUN := [AskRequest(1, STALE_DRAFT), Advance(1, true), Advance(1, true)]
                       + [AskRequest(2, ANOTHER_DRAFT), Advance(2, true), Advance(2, true)]
                       + [Advance(1, true), Advance(2, true)]

  lemma RunStart(policy: Policy, w: World, a: Step, b: Step, c: Step)
    ensures Run(policy, w, [a, b, c]) == Apply(policy, Apply(policy, Apply(policy, w, a), b), c)
  {
    RunThree(policy, w, [], a, b, c);
    assert [] + [a] + [b] + [c] == [a, b, c];
  }

  // The checks of one request call, by a caller that has not begun.
  lemma ChecksPass(policy: Policy, w: World, c: Caller, draft: Record)
    requires w.records == map[] && w.tombstones == map[] && c !in w.callers && IsDraft(draft)
    ensures Run(policy, w, [AskRequest(c, draft), Advance(c, true), Advance(c, true)]) == Move(w, c, Creating(draft))
  {
    RunStart(policy, w, AskRequest(c, draft), Advance(c, true), Advance(c, true));
    var w1 := Apply(policy, w, AskRequest(c, draft));
    assert w1 == Move(w, c, RequestMissing(draft));
    var w2 := Apply(policy, w1, Advance(c, true));
    assert w2 == Move(w, c, RequestUnknown(draft));
  }

  lemma BothCreate(w: World)
    requires w.records == map[] && w.callers == map[1 := Creating(STALE_DRAFT), 2 := Creating(ANOTHER_DRAFT)]
    ensures var w2 := Apply(STALE_POLICY, Apply(STALE_POLICY, w, Advance(1, true)), Advance(2, true));
            w2.records == map["r" := Bumped(STALE_DRAFT), "s" := Bumped(ANOTHER_DRAFT)]
  {
    var w1 := Apply(STALE_POLICY, w, Advance(1, true));
    assert w1.records == map["r" := Bumped(STALE_DRAFT)] && w1.callers[2] == Creating(ANOTHER_DRAFT);
  }

  // Two requests for one tenant, both suspending, in the reference store.
  lemma TwoOpenRequests()
    ensures Run(STALE_POLICY, START, CROWDED_RUN).records == map["r" := Bumped(STALE_DRAFT), "s" := Bumped(ANOTHER_DRAFT)]
    ensures !OneOpen(Run(STALE_POLICY, START, CROWDED_RUN).records)
  {
    var p := STALE_POLICY;
    var first, second := [AskRequest(1, STALE_DRAFT), Advance(1, true), Advance(1, true)],
                         [AskRequest(2, ANOTHER_DRAFT), Advance(2, true), Advance(2, true)];
    RunJoin(p, START, first + second, [Advance(1, true), Advance(2, true)]);
    RunJoin(p, START, first, second);
    ChecksPass(p, START, 1, STALE_DRAFT);
    var w := Move(START, 1, Creating(STALE_DRAFT));
    ChecksPass(p, w, 2, ANOTHER_DRAFT);
    var w2 := Move(w, 2, Creating(ANOTHER_DRAFT));
    RunOne(p, w2, [Advance(1, true)], Advance(2, true));
    RunOne(p, w2, [], Advance(1, true));
    assert [] + [Advance(1, true)] == [Advance(1, true)];
    assert [Advance(1, true)] + [Advance(2, true)] == [Advance(1, true), Advance(2, true)];
    BothCreate(w2);
    var records := Run(p, START, CROWDED_RUN).records;
    assert !Apart(records["r"], records["s"]);
  }
}
