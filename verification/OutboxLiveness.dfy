// Which committed events can still be brought to their end: all but those of a command whose
// content was taken away by an erasure before the command itself was marked.
module OutboxLiveness {
  import opened Common
  import opened Outbox
  import opened OutboxGraph

  ghost predicate CanBeProcessed(w: World, e: Event) {
    exists steps :: e in Run(w, steps).rows && Run(w, steps).rows[e].processed
  }

  // A worker that knows what to do without reading the command again.
  predicate HasContent(pc: WorkerPc) {
    (pc.Projecting? && pc.seen.Some?) || pc.Writing? || pc.Deleting? || pc.Marking?
  }

  predicate Held(w: World, a: Aggregate) {
    exists x | x in w.workers :: HasContent(w.workers[x]) && SubjectOf(w, w.workers[x].m) == Some(a)
  }

  // The event's command has lost its content and nobody else has it.
  predicate Doomed(w: World, e: Event) {
    && e in w.rows && !w.rows[e].processed
    && w.rows[e].subject in w.subjects && w.subjects[w.rows[e].subject].redacted && !Held(w, w.rows[e].subject)
  }

  // ---------------------------------------------------------------------------
  // Ways to the end
  // ---------------------------------------------------------------------------

  lemma Pick<T>(s: set<T>) returns (x: T)
    requires s != {}
    ensures x in s
  {
    x :| x in s;
  }

  lemma {:induction false} Above(used: set<int>) returns (x: int)
    ensures forall y | y in used :: y < x
    decreases |used|
  {
    x := 0;
    if |used| > 0 {
      var y := Pick(used);
      var z := Above(used - {y});
      x := if y < z then z else y + 1;
      forall u | u in used ensures u < x {
        assert u == y || u in used - {y};
      }
    }
  }

  lemma Fresh(used: set<int>) returns (x: int)
    ensures x !in used
  {
    x := Above(used);
  }

  lemma StepThenProcessed(w: World, st: Step, e: Event)
    requires CanBeProcessed(Apply(w, st), e)
    ensures CanBeProcessed(w, e)
  {
    var steps: seq<Step> :| e in Run(Apply(w, st), steps).rows && Run(Apply(w, st), steps).rows[e].processed;
    RunJoin(w, [st], steps);
    RunOne(w, st);
    assert Run(w, [st] + steps).rows[e].processed;
  }

  lemma ProcessedAlready(w: World, e: Event)
    requires e in w.rows && w.rows[e].processed
    ensures CanBeProcessed(w, e)
  {
    assert Run(w, []) == w;
  }

  lemma MarkingEnds(w: World, x: Process, e: Event)
    requires Inv(w) && e in w.rows && x in w.workers && w.workers[x].Marking?
    requires SubjectOf(w, w.workers[x].m) == Some(w.rows[e].subject)
    ensures CanBeProcessed(w, e)
  {
    var m := w.workers[x].m;
    assert WorkerFits(w, x, w.workers[x]);
    assert RowFits(w, e);
    var w1 := Apply(w, Next(x, 0));
    assert w1 == Mark(w, x, m);
    assert w1.rows[e].processed;
    ProcessedAlready(w1, e);
    StepThenProcessed(w, Next(x, 0), e);
  }

  lemma ChangingEnds(w: World, x: Process, e: Event)
    requires Inv(w) && e in w.rows && x in w.workers && (w.workers[x].Writing? || w.workers[x].Deleting?)
    requires SubjectOf(w, w.workers[x].m) == Some(w.rows[e].subject)
    ensures CanBeProcessed(w, e)
  {
    var copy := Fresh(w.graph.used);
    ApplyKeeps(w, Next(x, copy));
    MarkingEnds(Apply(w, Next(x, copy)), x, e);
    StepThenProcessed(w, Next(x, copy), e);
  }

  // The copy an erasure will come upon.
  lemma CopyOf(g: Graph, n: Node) returns (c: CopyId)
    ensures Present(g, n) ==> c in g.copies && g.copies[c].node == n
  {
    c := 0;
    if Present(g, n) {
      c :| c in g.copies && g.copies[c].node == n;
    }
  }

  lemma ProjectingEnds(w: World, x: Process, e: Event)
    requires Inv(w) && e in w.rows && x in w.workers && w.workers[x].Projecting? && w.workers[x].seen.Some?
    requires SubjectOf(w, w.workers[x].m) == Some(w.rows[e].subject)
    ensures CanBeProcessed(w, e)
  {
    var c := CopyOf(w.graph, w.workers[x].seen.value.node);
    ApplyKeeps(w, Next(x, c));
    var w1 := Apply(w, Next(x, c));
    assert w1 == Goes(w, x, Project(w.graph, w.workers[x], c));
    if w1.workers[x].Marking? { MarkingEnds(w1, x, e); } else { ChangingEnds(w1, x, e); }
    StepThenProcessed(w, Next(x, c), e);
  }

  lemma HeldEnds(w: World, e: Event)
    requires Inv(w) && e in w.rows && Held(w, w.rows[e].subject)
    ensures CanBeProcessed(w, e)
  {
    var x :| x in w.workers && HasContent(w.workers[x]) && SubjectOf(w, w.workers[x].m) == Some(w.rows[e].subject);
    if w.workers[x].Projecting? {
      ProjectingEnds(w, x, e);
    } else if w.workers[x].Marking? {
      MarkingEnds(w, x, e);
    } else {
      ChangingEnds(w, x, e);
    }
  }

  predicate Readable(w: World, e: Event)
    requires e in w.rows
  {
    w.rows[e].subject in w.subjects && !w.subjects[w.rows[e].subject].redacted
  }

  // A message in the queue can be delivered to a new worker and handled.
  lemma QueuedIsProcessed(w: World, e: Event, m: MessageId)
    requires Inv(w) && e in w.rows && IsCopy(w, m, e) && w.place[m] == InQueue && Readable(w, e)
    ensures CanBeProcessed(w, e)
  {
    if w.rows[e].processed {
      ProcessedAlready(w, e);
    } else {
      var x := Fresh(w.workers.Keys);
      assert RowFits(w, e);
      var deliver, look := DeliverStep(x, m), Next(x, 0);
      var w1 := Apply(w, deliver);
      ApplyKeeps(w, deliver);
      var w2 := Apply(w1, look);
      ApplyKeeps(w1, look);
      assert w2 == Goes(w1, x, Ready(w1, m));
      ProjectingEnds(w2, x, e);
      StepThenProcessed(w1, look, e);
      StepThenProcessed(w, deliver, e);
    }
  }

  // An undispatched row can be relayed once its lease has run out.
  lemma UndispatchedIsProcessed(w: World, e: Event)
    requires Inv(w) && e in w.rows && Readable(w, e) && !w.rows[e].dispatched
    ensures CanBeProcessed(w, e)
  {
    if w.rows[e].processed {
      ProcessedAlready(w, e);
    } else {
      var r := Fresh(w.relays.Keys);
      var lock := Fresh(w.usedLocks);
      var m := Fresh(w.content.Keys);
      var claim, publish := ClaimStep(r, e, lock, true), PublishStep(r, m, Confirmed);
      var w1 := Apply(w, claim);
      ApplyKeeps(w, claim);
      assert w1.relays[r] == Claimed(e, lock);
      var w2 := Apply(w1, publish);
      ApplyKeeps(w1, publish);
      QueuedIsProcessed(w2, e, m);
      StepThenProcessed(w1, publish, e);
      StepThenProcessed(w, claim, e);
    }
  }

  // A dead letter can be redriven.
  lemma DeadLetterIsProcessed(w: World, e: Event, m: MessageId)
    requires Inv(w) && e in w.rows && Readable(w, e) && IsCopy(w, m, e) && w.place[m] == InDeadLetters
    ensures CanBeProcessed(w, e)
  {
    if w.rows[e].processed {
      ProcessedAlready(w, e);
    } else {
      var d := Fresh(w.redrivers.Keys);
      var w1 := Apply(w, GetStep(d, e, m));
      ApplyKeeps(w, GetStep(d, e, m));
      assert w1.redrivers[d] == Found(e, m);
      var w2 := Apply(w1, RedriveStep(d, true));
      ApplyKeeps(w1, RedriveStep(d, true));
      UndispatchedIsProcessed(w2, e);
      StepThenProcessed(w1, RedriveStep(d, true), e);
      StepThenProcessed(w, GetStep(d, e, m), e);
    }
  }

  lemma CopyIsProcessed(w: World, e: Event, m: MessageId)
    requires Inv(w) && e in w.rows && Readable(w, e) && IsCopy(w, m, e)
    requires w.place[m].AtWorker? ==> w.place[m].worker in w.workers && w.workers[w.place[m].worker].m == m
    ensures CanBeProcessed(w, e)
  {
    match w.place[m]
    case InQueue => QueuedIsProcessed(w, e, m);
    case InDeadLetters => DeadLetterIsProcessed(w, e, m);
    case AtWorker(x) =>
      var st := WorkerCrashStep(x, false);
      ApplyKeeps(w, st);
      QueuedIsProcessed(Apply(w, st), e, m);
      StepThenProcessed(w, st, e);
    case AtRedriver(d) =>
      var st := RedriverCrashStep(d);
      ApplyKeeps(w, st);
      DeadLetterIsProcessed(Apply(w, st), e, m);
      StepThenProcessed(w, st, e);
  }

  predicate WorkersHold(w: World) {
    forall m | m in w.place && w.place[m].AtWorker? :: w.place[m].worker in w.workers && w.workers[w.place[m].worker].m == m
  }

  // No step takes a message from, or gives one to, a worker other than its own.
  lemma HoldAfterStep(w: World, w': World, x: Process)
    requires WorkersHold(w) && x in w.workers && x in w'.workers && w'.workers[x].m == w.workers[x].m
    requires w'.place == w.place && w'.workers - {x} == w.workers - {x}
    ensures WorkersHold(w')
  {
    forall m | m in w'.place && w'.place[m].AtWorker?
      ensures w'.place[m].worker in w'.workers && w'.workers[w'.place[m].worker].m == m
    {
      var y := w.place[m].worker;
      if y != x { assert y in w.workers - {x}; }
    }
  }

  lemma HoldAfterLeaving(w: World, w': World, x: Process)
    requires WorkersHold(w) && x in w.workers && w'.workers == w.workers - {x}
    requires forall m | m in w'.place && w'.place[m].AtWorker? :: m in w.place && w.place[m] == w'.place[m] && m != w.workers[x].m
    ensures WorkersHold(w')
  {
  }

  lemma HoldAfterReturn(w: World, x: Process, toDead: bool)
    requires Inv(w) && WorkersHold(w) && x in w.workers
    ensures WorkersHold(Return(w, x, w.workers[x].m, toDead)) && WorkersHold(Acknowledge(w, x, w.workers[x].m))
  {
    assert WorkerFits(w, x, w.workers[x]);
    HoldAfterLeaving(w, Return(w, x, w.workers[x].m, toDead), x);
    HoldAfterLeaving(w, Acknowledge(w, x, w.workers[x].m), x);
  }

  lemma HoldAfterWork(w: World, x: Process, ok: bool, toDead: bool, copy: CopyId)
    requires Inv(w) && WorkersHold(w) && x in w.workers
    ensures WorkersHold(Work(w, x, ok, toDead, copy))
  {
    var pc := w.workers[x];
    if pc.Acking? || pc.Rejecting? {
      HoldAfterReturn(w, x, toDead);
    } else if ok {
      HoldAfterStep(w, Proceed(w, x, pc, copy), x);
    } else {
      HoldAfterStep(w, Goes(w, x, Rejecting(pc.m)), x);
    }
  }

  // Moving messages that no worker has to places that are no worker's.
  lemma HoldAfterMoves(w: World, w': World)
    requires WorkersHold(w) && w'.workers == w.workers
    requires forall m | m in w'.place && w'.place[m].AtWorker? :: m in w.place && w.place[m] == w'.place[m]
    ensures WorkersHold(w')
  {
  }

  lemma HoldAfterRedrive(w: World, d: Process, target: Event, m: MessageId, ok: bool)
    requires WorkersHold(w)
    ensures WorkersHold(Reschedule(w, d, target, m, ok)) && WorkersHold(Settle(w, d, m, ok)) && WorkersHold(RedriverCrash(w, d))
  {
    HoldAfterMoves(w, GiveBack(w, d, m));
    HoldAfterMoves(w, RedriverCrash(w, d));
  }

  lemma HoldAfterDeliver(w: World, x: Process, m: MessageId, r: Process, n: MessageId, outcome: Outcome)
    requires WorkersHold(w)
    ensures WorkersHold(Deliver(w, x, m)) && WorkersHold(RelayPublish(w, r, n, outcome))
  {
  }

  lemma WorkersHoldStays(w: World, st: Step)
    requires Inv(w) && WorkersHold(w)
    ensures WorkersHold(Apply(w, st))
  {
    match st
    case PublishStep(r, m, outcome) => HoldAfterDeliver(w, 0, 0, r, m, outcome);
    case DeliverStep(x, m) => HoldAfterDeliver(w, x, m, 0, 0, Refused);
    case WorkStep(x, ok, toDead, copy) => if x in w.workers { HoldAfterWork(w, x, ok, toDead, copy); }
    case WorkerCrashStep(x, toDead) => if x in w.workers { HoldAfterReturn(w, x, toDead); }
    case GetStep(d, target, m) => HoldAfterMoves(w, RedriveGet(w, d, target, m));
    case RedriveStep(d, ok) => if d in w.redrivers { HoldAfterRedriveStep(w, d, ok); }
    case RedriverCrashStep(d) => HoldAfterMoves(w, RedriverCrash(w, d));
    case _ => HoldAfterMoves(w, Apply(w, st));
  }

  lemma HoldAfterRedriveStep(w: World, d: Process, ok: bool)
    requires WorkersHold(w) && d in w.redrivers
    ensures WorkersHold(Redrive(w, d, ok))
  {
    match w.redrivers[d]
    case Scanning(_) => HoldAfterMoves(w, Redrive(w, d, ok));
    case Found(target, m) => HoldAfterRedrive(w, d, target, m, ok);
    case AckDue(m) => HoldAfterRedrive(w, d, 0, m, ok);
    case Finishing => HoldAfterRedrive(w, d, 0, 0, ok);
  }

  lemma {:induction false} WorkersHoldInRun(w: World, steps: seq<Step>)
    requires Inv(w) && WorkersHold(w)
    ensures WorkersHold(Run(w, steps))
    decreases |steps|
  {
    if steps != [] {
      WorkersHoldStays(w, steps[0]);
      ApplyKeeps(w, steps[0]);
      WorkersHoldInRun(Apply(w, steps[0]), steps[1..]);
    }
  }

  lemma ReadableEnds(w: World, e: Event)
    requires Inv(w) && WorkersHold(w) && e in w.rows && Readable(w, e)
    ensures CanBeProcessed(w, e)
  {
    assert IsLive(w, e);
    if w.rows[e].processed {
      ProcessedAlready(w, e);
    } else if !w.rows[e].dispatched {
      UndispatchedIsProcessed(w, e);
    } else {
      var m :| IsCopy(w, m, e);
      CopyIsProcessed(w, e, m);
    }
  }

  // ---------------------------------------------------------------------------
  // No way to the end
  // ---------------------------------------------------------------------------

  // Nobody comes by the content of the event's command on the way from w to w'.
  ghost predicate NobodyLearns(w: World, w': World, a: Aggregate) {
    forall x | x in w'.workers && HasContent(w'.workers[x]) && SubjectOf(w', w'.workers[x].m) == Some(a) ::
      x in w.workers && HasContent(w.workers[x]) && SubjectOf(w, w.workers[x].m) == Some(a)
  }

  lemma StaysDoomed(w: World, w': World, e: Event)
    requires Doomed(w, e) && LedgerStays(w, w') && NobodyLearns(w, w', w.rows[e].subject)
    requires e in w'.rows && !w'.rows[e].processed
    ensures Doomed(w', e)
  {
    assert SubjectStays(w, w', w.rows[e].subject);
    assert RowStays(w, w', e);
  }

  // Workers only leave, or begin with a message they have not read.
  lemma UnreadIsHarmless(w: World, w': World, a: Aggregate)
    requires Inv(w) && LedgerStays(w, w')
    requires forall x | x in w'.workers :: (x in w.workers && w'.workers[x] == w.workers[x]) || w'.workers[x].Got? || w'.workers[x].Rejecting?
    ensures NobodyLearns(w, w', a)
  {
    forall x | x in w'.workers && HasContent(w'.workers[x]) && SubjectOf(w', w'.workers[x].m) == Some(a)
      ensures SubjectOf(w, w.workers[x].m) == Some(a)
    {
      assert WorkerFits(w, x, w.workers[x]);
      AimStays(w, w', w.workers[x].m, Erase(Item(0)));
    }
  }

  lemma LookingIsHarmless(w: World, x: Process, m: MessageId, e: Event)
    requires Inv(w) && Doomed(w, e) && x in w.workers && w.workers[x] == Got(m)
    ensures NobodyLearns(w, Goes(w, x, Ready(w, m)), w.rows[e].subject)
  {
    var w' := Goes(w, x, Ready(w, m));
    assert SubjectOf(w', m) == SubjectOf(w, m);
  }

  lemma DoingIsHarmless(w: World, x: Process, pc: WorkerPc, copy: CopyId, e: Event)
    requires Inv(w) && Doomed(w, e) && x in w.workers && w.workers[x] == pc
    requires pc.Projecting? || pc.Writing? || pc.Deleting? || pc.Marking?
    ensures NobodyLearns(w, Proceed(w, x, pc, copy), w.rows[e].subject)
    ensures e in Proceed(w, x, pc, copy).rows && !Proceed(w, x, pc, copy).rows[e].processed
  {
    var w', a := Proceed(w, x, pc, copy), w.rows[e].subject;
    assert WorkerFits(w, x, pc);
    ProceedGrows(w, x, pc, copy);
    if HasContent(pc) { assert SubjectOf(w, pc.m) != Some(a); }
    forall y | y in w'.workers && HasContent(w'.workers[y]) && SubjectOf(w', w'.workers[y].m) == Some(a)
      ensures y in w.workers && HasContent(w.workers[y]) && SubjectOf(w, w.workers[y].m) == Some(a)
    {
      assert w'.workers[y].m == w.workers[y].m;
      assert WorkerFits(w, y, w.workers[y]);
      AimStays(w, w', w.workers[y].m, Erase(Item(0)));
    }
  }

  lemma WorkDooms(w: World, x: Process, ok: bool, toDead: bool, copy: CopyId, e: Event)
    requires Inv(w) && Doomed(w, e)
    ensures Doomed(Work(w, x, ok, toDead, copy), e)
  {
    var w' := Work(w, x, ok, toDead, copy);
    WorkGrows(w, x, ok, toDead, copy);
    if x in w.workers && ok && !w.workers[x].Acking? && !w.workers[x].Rejecting? {
      var pc := w.workers[x];
      if pc.Got? { LookingIsHarmless(w, x, pc.m, e); } else { DoingIsHarmless(w, x, pc, copy, e); }
    } else {
      assert OnlyMoves(w, w');
      UnreadIsHarmless(w, w', w.rows[e].subject);
    }
    StaysDoomed(w, w', e);
  }

  lemma StepDooms(w: World, st: Step, e: Event)
    requires Inv(w) && Doomed(w, e)
    ensures Doomed(Apply(w, st), e)
  {
    match st
    case WorkStep(x, ok, toDead, copy) => WorkDooms(w, x, ok, toDead, copy, e);
    case _ =>
      StepGrows(w, st);
      OthersProcessNothing(w, st, e);
      UnreadIsHarmless(w, Apply(w, st), w.rows[e].subject);
      StaysDoomed(w, Apply(w, st), e);
  }

  lemma RelaysProcessNothing(w: World, st: Step, e: Event)
    requires st.ClaimStep? || st.PublishStep? || st.RelayStep? || st.CommitStep?
    requires e in w.rows && !w.rows[e].processed
    ensures e in Apply(w, st).rows && !Apply(w, st).rows[e].processed && Apply(w, st).workers == w.workers
  {
  }

  lemma RedrivesProcessNothing(w: World, d: Process, ok: bool, e: Event)
    requires e in w.rows && !w.rows[e].processed
    ensures e in Redrive(w, d, ok).rows && !Redrive(w, d, ok).rows[e].processed
  {
  }

  lemma OthersProcessNothing(w: World, st: Step, e: Event)
    requires !st.WorkStep? && e in w.rows && !w.rows[e].processed
    ensures e in Apply(w, st).rows && !Apply(w, st).rows[e].processed
    ensures var w' := Apply(w, st);
            forall x | x in w'.workers :: (x in w.workers && w'.workers[x] == w.workers[x]) || w'.workers[x].Got?
  {
    match st
    case CommitStep(_, _, _) => RelaysProcessNothing(w, st, e);
    case ClaimStep(_, _, _, _) => RelaysProcessNothing(w, st, e);
    case PublishStep(_, _, _) => RelaysProcessNothing(w, st, e);
    case RelayStep(_) => RelaysProcessNothing(w, st, e);
    case RedriveStep(d, ok) => RedrivesProcessNothing(w, d, ok, e);
    case StrayStep(_) =>
    case _ =>
  }

  lemma {:induction false} RunDooms(w: World, steps: seq<Step>, e: Event)
    requires Inv(w) && Doomed(w, e)
    ensures Doomed(Run(w, steps), e)
    decreases |steps|
  {
    if steps != [] {
      StepDooms(w, steps[0], e);
      ApplyKeeps(w, steps[0]);
      RunDooms(Apply(w, steps[0]), steps[1..], e);
    }
  }

  // From every reachable state, whatever died on the way there, a committed event can still be
  // brought to its end, exactly unless its command is redacted with nobody at work on it.
  lemma CanBeProcessedExactly(steps: seq<Step>, e: Event)
    requires e in Run(START, steps).rows
    ensures CanBeProcessed(Run(START, steps), e) <==> !Doomed(Run(START, steps), e)
  {
    StartFits();
    RunKeeps(START, steps);
    WorkersHoldInRun(START, steps);
    var w := Run(START, steps);
    assert RowFits(w, e);
    if Doomed(w, e) {
      forall more ensures e in Run(w, more).rows && !Run(w, more).rows[e].processed { RunDooms(w, more, e); }
    } else if w.rows[e].processed {
      ProcessedAlready(w, e);
    } else if Held(w, w.rows[e].subject) {
      HeldEnds(w, e);
    } else {
      ReadableEnds(w, e);
    }
  }

  // ---------------------------------------------------------------------------
  // A command that can never be marked
  // ---------------------------------------------------------------------------

  // A worker writes a retained item and dies before it marks the command; the item, visible in the
  // graph, is erased.
  const STUCK_RUN := ([CommitStep(1, 1, Put(Item(7), "note"))] + Relaying(1, 1, 1, Confirmed))
                     + (Asking(2, 1) + Changing(2, 1) + [WorkerCrashStep(2, false)])
                     + (ErasureOffered(2, 2) + Handling(2, 2, 1))

  function Retained(graph: Graph): World {
    World(map[1 := Row(1, true, false, None)], map[1 := Subject(Waiting, Put(Item(7), "note"), false)], map[Item(7) := 1],
          graph, map[1 := Some(1)], map[1 := InQueue], map[], map[], map[], {1})
  }

  lemma RetainOffered()
    ensures Run(START, [CommitStep(1, 1, Put(Item(7), "note"))] + Relaying(1, 1, 1, Confirmed)) == Retained(NO_GRAPH)
  {
    var commit := CommitStep(1, 1, Put(Item(7), "note"));
    RunJoin(START, [commit], Relaying(1, 1, 1, Confirmed));
    RunOne(START, commit);
    RelayingRelays(Apply(START, commit), 1, 1, 1, Confirmed);
    assert Relayed(Apply(START, commit), 1, 1, 1, Confirmed) == Retained(NO_GRAPH);
  }

  const WRITTEN := Added(NO_GRAPH, 1, Item(7), "note")

  lemma CrashBeforeMark()
    ensures Run(Retained(NO_GRAPH), Asking(2, 1) + Changing(2, 1) + [WorkerCrashStep(2, false)]) == Retained(WRITTEN)
  {
    var w := Retained(NO_GRAPH);
    RunParts(w, Asking(2, 1), Changing(2, 1), [WorkerCrashStep(2, false)]);
    AskingAsks(w, 2, 1);
    ChangingWrites(w, 2, 1, Item(7), "note", 1);
    var w1 := At(w, 2, 1, Marking(1)).(graph := WRITTEN);
    RunOne(w1, WorkerCrashStep(2, false));
    assert w1.workers - {2} == map[];
    assert w1.place[1 := InQueue] == map[1 := InQueue];
  }

  lemma ErasedMeanwhile()
    ensures var w := Run(Run(Retained(WRITTEN), ErasureOffered(2, 2)), Handling(2, 2, 1));
            Doomed(w, 1) && w.place == map[1 := InQueue] && w.graph.copies == map[]
  {
    ErasureIsOffered(Retained(WRITTEN), 2, 2);
    var w := WithErasure(Retained(WRITTEN), 2, 2);
    assert SubjectOf(w, 2) == Some(2);
    assert w.graph.copies[1].node == Item(7);
    HandlingDeletes(w, 2, 2, Item(7), 1);
    assert w.place - {2} == map[1 := InQueue];
    assert CloseRows(w.rows, 2)[1] == Row(1, true, false, None);
  }

  // The retain stays accepted for ever: its message goes round and no run acknowledges it.
  lemma RetainIsNeverMarked(more: seq<Step>)
    ensures 1 in Run(Run(START, STUCK_RUN), more).rows && !Run(Run(START, STUCK_RUN), more).rows[1].processed
    ensures Run(START, STUCK_RUN).place == map[1 := InQueue]
  {
    RunParts(START, [CommitStep(1, 1, Put(Item(7), "note"))] + Relaying(1, 1, 1, Confirmed),
             Asking(2, 1) + Changing(2, 1) + [WorkerCrashStep(2, false)], ErasureOffered(2, 2) + Handling(2, 2, 1));
    RetainOffered();
    CrashBeforeMark();
    RunJoin(Retained(WRITTEN), ErasureOffered(2, 2), Handling(2, 2, 1));
    ErasedMeanwhile();
    StartFits();
    RunKeeps(START, STUCK_RUN);
    RunDooms(Run(START, STUCK_RUN), more, 1);
  }
}
