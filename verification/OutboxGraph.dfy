// What the memory graph holds after any number of deliveries, and the two ways in which a second
// delivery leaves its mark.
module OutboxGraph {
  import opened Common
  import opened Outbox

  // The graph as one delivery of each command would leave it: one copy of every node that was
  // put and not erased, and nothing else.
  ghost predicate OneDelivery(g: Graph) {
    && (forall n :: Present(g, n) <==> n in g.put && n !in g.erased)
    && (forall c, d | c in g.copies && d in g.copies && g.copies[c].node == g.copies[d].node :: c == d)
  }

  ghost predicate AlwaysOneDelivery(w: World, steps: seq<Step>)
    decreases |steps|
  {
    OneDelivery(w.graph) && (steps == [] || AlwaysOneDelivery(Apply(w, steps[0]), steps[1..]))
  }

  // A worker writes a node that was written before: its look at the database or at the graph is
  // out of date.
  predicate LateWrite(w: World, st: Step) {
    && st.WorkStep? && st.ok && st.x in w.workers && w.workers[st.x].Writing? && st.copy !in w.graph.used
    && w.workers[st.x].node in w.graph.put
  }

  predicate NoLateWrite(w: World, steps: seq<Step>)
    decreases |steps|
  {
    steps == [] || (!LateWrite(w, steps[0]) && NoLateWrite(Apply(w, steps[0]), steps[1..]))
  }

  lemma WriteDelivers(w: World, c: CopyId, n: Node, text: string)
    requires Inv(w) && OneDelivery(w.graph) && c !in w.graph.used
    ensures OneDelivery(Added(w.graph, c, n, text)) <==> n !in w.graph.put
  {
    var g, g' := w.graph, Added(w.graph, c, n, text);
    assert g'.copies[c].node == n;
    forall d | d in g.copies ensures d in g'.copies && g'.copies[d] == g.copies[d] { assert CopyFits(w, d); }
    if n in g.put {
      if n !in g.erased {
        assert Present(g, n);
        var d :| d in g.copies && g.copies[d].node == n;
        assert CopyFits(w, d);
        assert d != c && g'.copies[d].node == g'.copies[c].node;
      }
    } else {
      forall d | d in g.copies ensures g.copies[d].node != n { assert CopyFits(w, d); }
      forall k ensures Present(g', k) <==> k in g'.put && k !in g'.erased { AddedPresent(g, c, n, text, k); }
    }
  }

  lemma AddedPresent(g: Graph, c: CopyId, n: Node, text: string, k: Node)
    requires c !in g.copies
    ensures Present(Added(g, c, n, text), k) <==> Present(g, k) || k == n
  {
    var g' := Added(g, c, n, text);
    if Present(g, k) {
      var d :| d in g.copies && g.copies[d].node == k;
      assert g'.copies[d].node == k;
    }
    assert g'.copies[c].node == n;
  }

  lemma DeletePresent(g: Graph, c: CopyId, n: Node, k: Node)
    requires OneDelivery(g) && TakenOrGone(g, c, n) && n in g.put
    ensures Present(Deleted(g, c, n), k) <==> Present(g, k) && k != n
  {
    var g' := Deleted(g, c, n);
    if Present(g, k) && k != n {
      var d :| d in g.copies && g.copies[d].node == k;
      assert g'.copies[d].node == k;
    }
    if c !in g.copies { assert !Present(g, n); }
    assert forall d | d in g'.copies :: d in g.copies && g'.copies[d] == g.copies[d] && g.copies[d].node != n;
  }

  lemma DeleteDelivers(g: Graph, c: CopyId, n: Node)
    requires OneDelivery(g) && TakenOrGone(g, c, n) && n in g.put
    ensures OneDelivery(Deleted(g, c, n))
  {
    forall k ensures Present(Deleted(g, c, n), k) <==> k in g.put && k !in Deleted(g, c, n).erased { DeletePresent(g, c, n, k); }
  }

  lemma StepDelivers(w: World, st: Step)
    requires Inv(w) && OneDelivery(w.graph)
    ensures OneDelivery(Apply(w, st).graph) <==> !LateWrite(w, st)
  {
    if st.WorkStep? && st.x in w.workers && st.ok {
      var pc := w.workers[st.x];
      assert WorkerFits(w, st.x, pc);
      if pc.Writing? && st.copy !in w.graph.used { WriteDelivers(w, st.copy, pc.node, pc.text); }
      if pc.Deleting? { DeleteDelivers(w.graph, pc.copy, pc.node); }
    } else {
      assert Apply(w, st).graph == w.graph;
    }
  }

  lemma {:induction false} RunDelivers(w: World, steps: seq<Step>)
    requires Inv(w) && OneDelivery(w.graph)
    ensures AlwaysOneDelivery(w, steps) <==> NoLateWrite(w, steps)
    ensures NoLateWrite(w, steps) ==> OneDelivery(Run(w, steps).graph)
    decreases |steps|
  {
    if steps != [] {
      StepDelivers(w, steps[0]);
      ApplyKeeps(w, steps[0]);
      if !LateWrite(w, steps[0]) { RunDelivers(Apply(w, steps[0]), steps[1..]); }
    }
  }

  lemma NothingYet()
    ensures Inv(START) && OneDelivery(START.graph)
  {
    StartFits();
  }

  // However often messages are delivered and workers die, the graph is at every moment what one
  // delivery of each command would have made of it exactly if no worker writes a node late.
  lemma DuplicatesChangeNothingExactly(steps: seq<Step>)
    ensures AlwaysOneDelivery(START, steps) <==> NoLateWrite(START, steps)
  {
    NothingYet();
    RunDelivers(START, steps);
  }

  ghost predicate Settled(w: World) {
    forall a | a in w.subjects :: w.subjects[a].phase == Done
  }

  lemma OwnedIsPut(w: World, n: Node)
    requires Inv(w) && Settled(w)
    ensures n in w.owners <==> n in w.graph.put
  {
    if n in w.owners {
      assert OwnerFits(w, n);
      assert SubjectFits(w, w.owners[n]);
    }
  }

  lemma ErasingIsErased(w: World, n: Node)
    requires Inv(w) && Settled(w)
    ensures Erasing(w, n) <==> n in w.graph.erased
  {
    if Erasing(w, n) {
      var a :| a in w.subjects && w.subjects[a].effect == Erase(n);
      assert SubjectFits(w, a);
    }
  }

  // Then, once everything accepted is applied, the graph is what the database says: one copy, with
  // its text, of every node that was put and not erased, in whatever order the commands came.
  lemma SettledGraphIsTheLedger(steps: seq<Step>)
    requires NoLateWrite(START, steps)
    requires Settled(Run(START, steps))
    ensures var w := Run(START, steps);
            && (forall n :: Present(w.graph, n) <==> n in w.owners && !Erasing(w, n))
            && (forall c | c in w.graph.copies :: Owned(w, w.graph.copies[c].node, w.graph.copies[c].text))
            && (forall c, d | c in w.graph.copies && d in w.graph.copies && w.graph.copies[c].node == w.graph.copies[d].node :: c == d)
  {
    NothingYet();
    RunDelivers(START, steps);
    RunKeeps(START, steps);
    var w := Run(START, steps);
    forall c | c in w.graph.copies ensures Owned(w, w.graph.copies[c].node, w.graph.copies[c].text) { assert CopyFits(w, c); }
    forall n ensures Present(w.graph, n) <==> n in w.owners && !Erasing(w, n) {
      OwnedIsPut(w, n);
      ErasingIsErased(w, n);
    }
  }

  // Late writes or not, published knowledge never leaves the graph, and every copy carries the
  // text that was accepted for its node.
  lemma KnowledgeStays(before: seq<Step>, after: seq<Step>, n: Node)
    requires n.Knowledge? && n in Run(START, before).graph.put
    ensures var w := Run(Run(START, before), after);
            Present(w.graph, n) && forall c | c in w.graph.copies :: Owned(w, w.graph.copies[c].node, w.graph.copies[c].text)
  {
    StartFits();
    RunKeeps(START, before);
    var w := Run(START, before);
    RunKeeps(w, after);
    var w' := Run(w, after);
    forall c | c in w'.graph.copies ensures Owned(w', w'.graph.copies[c].node, w'.graph.copies[c].text) { assert CopyFits(w', c); }
  }

  // ---------------------------------------------------------------------------
  // The two late writes
  // ---------------------------------------------------------------------------

  // One turn of a relay. When the broker stores the message and fails to say so, the event is
  // offered again.
  function Relaying(e: Event, lock: LockId, m: MessageId, outcome: Outcome): seq<Step> {
    [ClaimStep(1, e, lock, false), PublishStep(1, m, outcome), RelayStep(1)]
  }

  function Relayed(w: World, e: Event, lock: LockId, m: MessageId, outcome: Outcome): World
    requires e in w.rows
  {
    w.(rows := w.rows[e := Row(w.rows[e].subject, outcome == Confirmed, false, None)],
       content := w.content[m := Some(e)], place := w.place[m := InQueue], usedLocks := w.usedLocks + {lock})
  }

  lemma RunThree(w: World, a: Step, b: Step, c: Step)
    ensures Run(w, [a, b, c]) == Apply(Apply(Apply(w, a), b), c)
  {
    assert [a, b, c][1..] == [b, c];
    assert [b, c][1..] == [c];
    RunOne(Apply(Apply(w, a), b), c);
    assert Run(Apply(w, a), [b, c]) == Run(Apply(Apply(w, a), b), [c]);
  }

  lemma ClaimAndPublish(w: World, e: Event, lock: LockId, m: MessageId, outcome: Outcome)
    requires w.relays == map[] && lock !in w.usedLocks && m !in w.content && outcome != Refused
    requires e in w.rows && Claimable(w.rows[e], false)
    ensures var w2 := Apply(Apply(w, ClaimStep(1, e, lock, false)), PublishStep(1, m, outcome));
            w2 == Relayed(w, e, lock, m, outcome).(rows := w.rows[e := w.rows[e].(lock := Some(lock))],
              relays := map[1 := if outcome == Confirmed then Published(e, lock, m) else Releasing(e, lock)])
  {
    var w1 := Apply(w, ClaimStep(1, e, lock, false));
    assert w1.relays == map[1 := Claimed(e, lock)] && w1.rows == w.rows[e := w.rows[e].(lock := Some(lock))];
  }

  lemma FinishRelaying(w: World, e: Event, lock: LockId, m: MessageId, pc: RelayPc)
    requires e in w.rows && w.rows[e].lock == Some(lock) && !w.rows[e].dispatched && w.relays == map[1 := pc]
    requires pc == Published(e, lock, m) || pc == Releasing(e, lock)
    ensures Apply(w, RelayStep(1)) == w.(rows := w.rows[e := Row(w.rows[e].subject, pc.Published?, w.rows[e].processed, None)], relays := map[])
  {
    assert w.relays - {1} == map[];
  }

  lemma RelayingRelays(w: World, e: Event, lock: LockId, m: MessageId, outcome: Outcome)
    requires w.relays == map[] && lock !in w.usedLocks && m !in w.content && outcome != Refused
    requires e in w.rows && Claimable(w.rows[e], false)
    ensures Run(w, Relaying(e, lock, m, outcome)) == Relayed(w, e, lock, m, outcome)
  {
    RunThree(w, ClaimStep(1, e, lock, false), PublishStep(1, m, outcome), RelayStep(1));
    ClaimAndPublish(w, e, lock, m, outcome);
    var w2 := Apply(Apply(w, ClaimStep(1, e, lock, false)), PublishStep(1, m, outcome));
    FinishRelaying(w2, e, lock, m, w2.relays[1]);
    assert w2.rows[e := Row(w.rows[e].subject, outcome == Confirmed, false, None)] == Relayed(w, e, lock, m, outcome).rows;
  }

  function Asking(x: Process, m: MessageId): seq<Step> {
    [DeliverStep(x, m), Next(x, 0)]
  }

  lemma RunTwo(w: World, a: Step, b: Step)
    ensures Run(w, [a, b]) == Apply(Apply(w, a), b)
  {
    assert [a, b][1..] == [b];
    RunOne(Apply(w, a), b);
  }

  // The worker has read a waiting command.
  lemma AskingAsks(w: World, x: Process, m: MessageId)
    requires x !in w.workers && m in w.place && w.place[m] == InQueue
    requires Carrying(w, m)
    ensures Run(w, Asking(x, m)) == At(w, x, m, Projecting(m, Some(EffectOf(w, m))))
  {
    RunTwo(w, DeliverStep(x, m), Next(x, 0));
    var w1 := Apply(w, DeliverStep(x, m));
    assert w1 == At(w, x, m, Got(m));
    assert At(w, x, m, Got(m)).workers[x := Projecting(m, Some(EffectOf(w, m)))] == w.workers[x := Projecting(m, Some(EffectOf(w, m)))];
  }

  predicate Carrying(w: World, m: MessageId) {
    var a := SubjectOf(w, m);
    a.Some? && a.value in w.subjects && w.subjects[a.value].phase == Waiting && !w.subjects[a.value].redacted
  }

  function EffectOf(w: World, m: MessageId): Effect
    requires Carrying(w, m)
  {
    w.subjects[SubjectOf(w, m).value].effect
  }

  // The worker has the message and is at a step of its own.
  function At(w: World, x: Process, m: MessageId, pc: WorkerPc): World {
    w.(place := w.place[m := AtWorker(x)], workers := w.workers[x := pc])
  }

  // The rest of a delivery: look at the graph, change it, mark, acknowledge.
  function Changing(x: Process, copy: CopyId): seq<Step> {
    [Next(x, copy), Next(x, copy)]
  }

  function Closing(x: Process): seq<Step> {
    [Next(x, 0), Next(x, 0)]
  }

  lemma ChangingWrites(w: World, x: Process, m: MessageId, n: Node, text: string, copy: CopyId)
    requires !Present(w.graph, n) && copy !in w.graph.used
    ensures Run(At(w, x, m, Projecting(m, Some(Put(n, text)))), Changing(x, copy))
         == At(w, x, m, Marking(m)).(graph := Added(w.graph, copy, n, text))
  {
    var w0 := At(w, x, m, Projecting(m, Some(Put(n, text))));
    RunTwo(w0, Next(x, copy), Next(x, copy));
    assert Apply(w0, Next(x, copy)) == Goes(w0, x, Writing(m, n, text));
    assert w0.workers[x := Writing(m, n, text)][x := Marking(m)] == w.workers[x := Marking(m)];
  }

  lemma ChangingDeletes(w: World, x: Process, m: MessageId, n: Node, copy: CopyId)
    requires copy in w.graph.copies && w.graph.copies[copy].node == n
    ensures Run(At(w, x, m, Projecting(m, Some(Erase(n)))), Changing(x, copy))
         == At(w, x, m, Marking(m)).(graph := Deleted(w.graph, copy, n))
  {
    var w0 := At(w, x, m, Projecting(m, Some(Erase(n))));
    RunTwo(w0, Next(x, copy), Next(x, copy));
    assert Apply(w0, Next(x, copy)) == Goes(w0, x, Deleting(m, n, copy));
    assert w0.workers[x := Deleting(m, n, copy)][x := Marking(m)] == w.workers[x := Marking(m)];
  }

  lemma ClosingCloses(w: World, x: Process, m: MessageId)
    requires x !in w.workers && SubjectOf(w, m).Some? && SubjectOf(w, m).value in w.subjects
    ensures Run(At(w, x, m, Marking(m)), Closing(x))
         == MarkDone(w, SubjectOf(w, m).value).(place := w.place - {m})
  {
    var w0 := At(w, x, m, Marking(m));
    var a := SubjectOf(w, m).value;
    RunTwo(w0, Next(x, 0), Next(x, 0));
    assert SubjectOf(w0, m) == Some(a);
    assert Apply(w0, Next(x, 0)) == Goes(MarkDone(w0, a), x, Acking(m));
    assert w0.workers[x := Acking(m)] - {x} == w.workers;
    assert w0.place - {m} == w.place - {m};
  }

  // A whole delivery.
  function Handling(x: Process, m: MessageId, copy: CopyId): seq<Step> {
    Asking(x, m) + Changing(x, copy) + Closing(x)
  }

  lemma RunParts(w: World, a: seq<Step>, b: seq<Step>, c: seq<Step>)
    ensures Run(w, a + b + c) == Run(Run(Run(w, a), b), c)
  {
    RunJoin(w, a + b, c);
    RunJoin(w, a, b);
  }

  lemma HandlingWrites(w: World, x: Process, m: MessageId, n: Node, text: string, copy: CopyId)
    requires x !in w.workers && m in w.place && w.place[m] == InQueue && Carrying(w, m) && EffectOf(w, m) == Put(n, text)
    requires !Present(w.graph, n) && copy !in w.graph.used
    ensures Run(w, Handling(x, m, copy))
         == MarkDone(w, SubjectOf(w, m).value).(graph := Added(w.graph, copy, n, text), place := w.place - {m})
  {
    RunParts(w, Asking(x, m), Changing(x, copy), Closing(x));
    AskingAsks(w, x, m);
    ChangingWrites(w, x, m, n, text, copy);
    var w1 := w.(graph := Added(w.graph, copy, n, text));
    assert At(w1, x, m, Marking(m)) == At(w, x, m, Marking(m)).(graph := Added(w.graph, copy, n, text));
    ClosingCloses(w1, x, m);
  }

  lemma HandlingDeletes(w: World, x: Process, m: MessageId, n: Node, copy: CopyId)
    requires x !in w.workers && m in w.place && w.place[m] == InQueue && Carrying(w, m) && EffectOf(w, m) == Erase(n)
    requires copy in w.graph.copies && w.graph.copies[copy].node == n
    ensures Run(w, Handling(x, m, copy))
         == MarkDone(w, SubjectOf(w, m).value).(graph := Deleted(w.graph, copy, n), place := w.place - {m})
  {
    RunParts(w, Asking(x, m), Changing(x, copy), Closing(x));
    AskingAsks(w, x, m);
    ChangingDeletes(w, x, m, n, copy);
    var w1 := w.(graph := Deleted(w.graph, copy, n));
    assert At(w1, x, m, Marking(m)) == At(w, x, m, Marking(m)).(graph := Deleted(w.graph, copy, n));
    ClosingCloses(w1, x, m);
  }

  // A put committed and relayed twice, the first time without the broker's word.
  function Offered(n: Node, text: string): seq<Step> {
    [CommitStep(1, 1, Put(n, text))] + Relaying(1, 1, 1, Unconfirmed) + Relaying(1, 2, 2, Confirmed)
  }

  const NO_GRAPH := Graph(map[], {}, {}, {})

  function TwoMessages(n: Node, text: string): World {
    World(map[1 := Row(1, true, false, None)], map[1 := Subject(Waiting, Put(n, text), false)], map[n := 1], NO_GRAPH,
          map[1 := Some(1), 2 := Some(1)], map[1 := InQueue, 2 := InQueue], map[], map[], map[], {1, 2})
  }

  lemma CommittedAndRelayed(w: World, n: Node, text: string)
    requires w == Apply(START, CommitStep(1, 1, Put(n, text))) && (n.Knowledge? ==> n.candidate == 1)
    ensures Run(Run(w, Relaying(1, 1, 1, Unconfirmed)), Relaying(1, 2, 2, Confirmed)) == TwoMessages(n, text)
  {
    RelayingRelays(w, 1, 1, 1, Unconfirmed);
    var w2 := Relayed(w, 1, 1, 1, Unconfirmed);
    RelayingRelays(w2, 1, 2, 2, Confirmed);
    assert Relayed(w2, 1, 2, 2, Confirmed) == TwoMessages(n, text);
  }

  lemma OfferedTwice(n: Node, text: string)
    requires n.Knowledge? ==> n.candidate == 1
    ensures Run(START, Offered(n, text)) == TwoMessages(n, text)
  {
    RunParts(START, [CommitStep(1, 1, Put(n, text))], Relaying(1, 1, 1, Unconfirmed), Relaying(1, 2, 2, Confirmed));
    RunOne(START, CommitStep(1, 1, Put(n, text)));
    CommittedAndRelayed(Apply(START, CommitStep(1, 1, Put(n, text))), n, text);
  }

  // An erasure of item 7, accepted and applied by worker 2 while others go on.
  function ErasureOffered(lock: LockId, m: MessageId): seq<Step> {
    [CommitStep(2, 2, Erase(Item(7)))] + Relaying(2, lock, m, Confirmed)
  }

  function WithErasure(w: World, lock: LockId, m: MessageId): World {
    w.(rows := w.rows[2 := Row(2, true, false, None)], subjects := w.subjects[2 := Subject(Waiting, Erase(Item(7)), false)],
       content := w.content[m := Some(2)], place := w.place[m := InQueue], usedLocks := w.usedLocks + {lock})
  }

  lemma ErasureIsOffered(w: World, lock: LockId, m: MessageId)
    requires 2 !in w.rows && 2 !in w.subjects && Item(7) in w.graph.put && !ErasureDone(w.subjects, Item(7))
    requires w.relays == map[] && lock !in w.usedLocks && m !in w.content
    ensures Run(w, ErasureOffered(lock, m)) == WithErasure(w, lock, m)
  {
    RunJoin(w, [CommitStep(2, 2, Erase(Item(7)))], Relaying(2, lock, m, Confirmed));
    RunOne(w, CommitStep(2, 2, Erase(Item(7))));
    var w1 := Apply(w, CommitStep(2, 2, Erase(Item(7))));
    RelayingRelays(w1, 2, lock, m, Confirmed);
    assert w1.rows[2 := Row(2, true, false, None)] == w.rows[2 := Row(2, true, false, None)];
  }

  // Worker 1 reads the command from the first message and stops; worker 2 handles the second
  // message and then the erasure; worker 1 goes on.
  const STALE_RUN := Offered(Item(7), "note") + Asking(1, 1) + (Handling(2, 2, 1) + ErasureOffered(3, 3) + Handling(2, 3, 1))
                     + (Changing(1, 2) + Closing(1))

  const NOTE := Copy(Item(7), "note")

  // Worker 1 holds the first message and nobody else is at work.
  function Paused(rows: map<Event, Row>, subjects: map<Aggregate, Subject>, graph: Graph,
          content: map<MessageId, Option<Event>>, locks: set<LockId>): World {
    World(rows, subjects, map[Item(7) := 1], graph, content, map[1 := AtWorker(1)], map[],
          map[1 := Projecting(1, Some(Put(Item(7), "note")))], map[], locks)
  }

  function Applied(): World {
    Paused(map[1 := Row(1, true, true, None)], map[1 := Subject(Done, Put(Item(7), "note"), false)],
           Graph(map[1 := NOTE], {Item(7)}, {}, {1}), map[1 := Some(1), 2 := Some(1)], {1, 2})
  }

  function Gone(): World {
    Paused(map[1 := Row(1, true, true, None), 2 := Row(2, true, true, None)],
           map[1 := Subject(Done, Put(Item(7), "note"), true), 2 := Subject(Done, Erase(Item(7)), false)],
           Graph(map[], {Item(7)}, {Item(7)}, {1}), map[1 := Some(1), 2 := Some(1), 3 := Some(2)], {1, 2, 3})
  }

  lemma RetainApplied()
    ensures Run(Run(TwoMessages(Item(7), "note"), Asking(1, 1)), Handling(2, 2, 1)) == Applied()
  {
    var w := TwoMessages(Item(7), "note");
    AskingAsks(w, 1, 1);
    var w1 := At(w, 1, 1, Projecting(1, Some(Put(Item(7), "note"))));
    assert SubjectOf(w1, 2) == Some(1);
    HandlingWrites(w1, 2, 2, Item(7), "note", 1);
    assert w1.place - {2} == map[1 := AtWorker(1)];
    var w2 := MarkDone(w1, 1).(graph := Added(w1.graph, 1, Item(7), "note"), place := w1.place - {2});
    assert w2.rows == Applied().rows;
    assert w2.graph == Applied().graph;
  }

  lemma ErasureCloses(w: World)
    requires w == WithErasure(Applied(), 3, 3)
    ensures MarkDone(w, 2).(graph := Deleted(w.graph, 1, Item(7)), place := w.place - {3}) == Gone()
  {
    var w2 := MarkDone(w, 2).(graph := Deleted(w.graph, 1, Item(7)), place := w.place - {3});
    assert w2.rows == Gone().rows;
    assert w2.subjects == Gone().subjects;
    assert w2.graph == Gone().graph;
    assert w2.place == Gone().place;
  }

  lemma ErasureApplied()
    ensures Run(Run(Applied(), ErasureOffered(3, 3)), Handling(2, 3, 1)) == Gone()
  {
    ErasureIsOffered(Applied(), 3, 3);
    var w := WithErasure(Applied(), 3, 3);
    assert SubjectOf(w, 3) == Some(2);
    HandlingDeletes(w, 2, 3, Item(7), 1);
    ErasureCloses(w);
  }

  lemma StaleWriteLands()
    ensures var w := Run(Gone(), Changing(1, 2) + Closing(1));
            && w.graph == Graph(map[2 := NOTE], {Item(7)}, {Item(7)}, {1, 2}) && w.place == map[]
            && w.rows == Gone().rows && w.subjects == Gone().subjects
  {
    var w := Gone().(place := map[1 := InQueue], workers := map[]);
    assert At(w, 1, 1, Projecting(1, Some(Put(Item(7), "note")))) == Gone();
    RunJoin(Gone(), Changing(1, 2), Closing(1));
    ChangingWrites(w, 1, 1, Item(7), "note", 2);
    var w1 := w.(graph := Added(w.graph, 2, Item(7), "note"));
    assert At(w1, 1, 1, Marking(1)) == At(w, 1, 1, Marking(1)).(graph := w1.graph);
    assert SubjectOf(w1, 1) == Some(1);
    ClosingCloses(w1, 1, 1);
  }

  lemma StaleRunEnds()
    ensures Run(START, STALE_RUN) == Run(Gone(), Changing(1, 2) + Closing(1))
  {
    var start, others := Offered(Item(7), "note") + Asking(1, 1), Handling(2, 2, 1) + ErasureOffered(3, 3) + Handling(2, 3, 1);
    RunParts(START, start, others, Changing(1, 2) + Closing(1));
    RunJoin(START, Offered(Item(7), "note"), Asking(1, 1));
    OfferedTwice(Item(7), "note");
    var w := Run(TwoMessages(Item(7), "note"), Asking(1, 1));
    RunParts(w, Handling(2, 2, 1), ErasureOffered(3, 3), Handling(2, 3, 1));
    RetainApplied();
    ErasureApplied();
  }

  // An erased item comes back: everything is applied, processed and acknowledged, the database says
  // the item is erased and the graph holds its text.
  lemma ErasedItemComesBack()
    ensures var w := Run(START, STALE_RUN);
            && w.graph.copies == map[2 := NOTE] && ErasureDone(w.subjects, Item(7)) && Settled(w)
            && w.place == map[] && forall e | e in w.rows :: w.rows[e].processed
  {
    StaleRunEnds();
    StaleWriteLands();
    assert Gone().subjects[2].effect == Erase(Item(7));
  }

  // Two workers look at the graph before either has written.
  const TWICE_RUN := Offered(Knowledge(1), "claim") + (Asking(1, 1) + Asking(2, 2) + [Next(1, 0), Next(2, 0)])
                     + ([Next(1, 1), Next(2, 2)] + (Closing(1) + Closing(2)))

  const CLAIM := Copy(Knowledge(1), "claim")

  function BothAt(w: World, pc1: WorkerPc, pc2: WorkerPc): World {
    w.(place := map[1 := AtWorker(1), 2 := AtWorker(2)], workers := map[1 := pc1, 2 := pc2])
  }

  lemma BothAsk(w: World)
    requires w == TwoMessages(Knowledge(1), "claim")
    ensures Run(w, Asking(1, 1) + Asking(2, 2))
         == BothAt(w, Projecting(1, Some(Put(Knowledge(1), "claim"))), Projecting(2, Some(Put(Knowledge(1), "claim"))))
  {
    var seen := Some(Put(Knowledge(1), "claim"));
    RunJoin(w, Asking(1, 1), Asking(2, 2));
    AskingAsks(w, 1, 1);
    var w1 := At(w, 1, 1, Projecting(1, seen));
    assert SubjectOf(w1, 2) == Some(1);
    AskingAsks(w1, 2, 2);
    assert At(w1, 2, 2, Projecting(2, seen)) == BothAt(w, Projecting(1, seen), Projecting(2, seen));
  }

  lemma BothLook(w: World)
    requires w.graph == NO_GRAPH
    ensures Run(BothAt(w, Projecting(1, Some(Put(Knowledge(1), "claim"))), Projecting(2, Some(Put(Knowledge(1), "claim")))),
                [Next(1, 0), Next(2, 0)])
         == BothAt(w, Writing(1, Knowledge(1), "claim"), Writing(2, Knowledge(1), "claim"))
  {
    var seen := Some(Put(Knowledge(1), "claim"));
    var w0 := BothAt(w, Projecting(1, seen), Projecting(2, seen));
    RunTwo(w0, Next(1, 0), Next(2, 0));
    assert Apply(w0, Next(1, 0)) == BothAt(w, Writing(1, Knowledge(1), "claim"), Projecting(2, seen));
  }

  lemma FirstWrites(w: World)
    requires w.graph == NO_GRAPH
    ensures Apply(BothAt(w, Writing(1, Knowledge(1), "claim"), Writing(2, Knowledge(1), "claim")), Next(1, 1))
         == BothAt(w, Marking(1), Writing(2, Knowledge(1), "claim")).(graph := Graph(map[1 := CLAIM], {Knowledge(1)}, {}, {1}))
  {
  }

  lemma SecondWrites(w: World)
    requires w.graph == Graph(map[1 := CLAIM], {Knowledge(1)}, {}, {1})
    ensures Apply(BothAt(w, Marking(1), Writing(2, Knowledge(1), "claim")), Next(2, 2))
         == BothAt(w, Marking(1), Marking(2)).(graph := Graph(map[1 := CLAIM, 2 := CLAIM], {Knowledge(1)}, {}, {1, 2}))
  {
    assert map[1 := CLAIM][2 := CLAIM] == map[1 := CLAIM, 2 := CLAIM];
  }

  lemma BothWrite(w: World)
    requires w.graph == NO_GRAPH
    ensures Run(BothAt(w, Writing(1, Knowledge(1), "claim"), Writing(2, Knowledge(1), "claim")), [Next(1, 1), Next(2, 2)])
         == BothAt(w, Marking(1), Marking(2)).(graph := Graph(map[1 := CLAIM, 2 := CLAIM], {Knowledge(1)}, {}, {1, 2}))
  {
    RunTwo(BothAt(w, Writing(1, Knowledge(1), "claim"), Writing(2, Knowledge(1), "claim")), Next(1, 1), Next(2, 2));
    FirstWrites(w);
    SecondWrites(w.(graph := Graph(map[1 := CLAIM], {Knowledge(1)}, {}, {1})));
  }

  lemma MarkDoneElsewhere(w: World, a: Aggregate, place: map<MessageId, Place>, workers: map<Process, WorkerPc>)
    requires a in w.subjects
    ensures MarkDone(w.(place := place, workers := workers), a) == MarkDone(w, a).(place := place, workers := workers)
  {
  }

  lemma ClosingAmong(w: World, x: Process, m: MessageId, place: map<MessageId, Place>, workers: map<Process, WorkerPc>)
    requires x !in workers && SubjectOf(w, m).Some? && SubjectOf(w, m).value in w.subjects
    ensures Run(At(w.(place := place, workers := workers), x, m, Marking(m)), Closing(x))
         == MarkDone(w, SubjectOf(w, m).value).(place := place - {m}, workers := workers)
  {
    var w0 := w.(place := place, workers := workers);
    assert SubjectOf(w0, m) == SubjectOf(w, m);
    ClosingCloses(w0, x, m);
    MarkDoneElsewhere(w, SubjectOf(w, m).value, place, workers);
  }

  lemma FirstCloses(w: World)
    requires w.content == map[1 := Some(1), 2 := Some(1)] && w.rows == map[1 := Row(1, true, false, None)]
    requires 1 in w.subjects
    ensures Run(BothAt(w, Marking(1), Marking(2)), Closing(1))
         == MarkDone(w, 1).(place := map[2 := AtWorker(2)], workers := map[2 := Marking(2)])
  {
    var place: map<MessageId, Place> := map[1 := InQueue, 2 := AtWorker(2)];
    BothAtOnce(w);
    assert SubjectOf(w, 1) == Some(1);
    ClosingAmong(w, 1, 1, place, map[2 := Marking(2)]);
    assert place - {1} == map[2 := AtWorker(2)];
  }

  lemma BothAtOnce(w: World)
    ensures BothAt(w, Marking(1), Marking(2))
         == At(w.(place := map[1 := InQueue, 2 := AtWorker(2)], workers := map[2 := Marking(2)]), 1, 1, Marking(1))
  {
    assert map[1 := InQueue, 2 := AtWorker(2)][1 := AtWorker(1)] == map[1 := AtWorker(1), 2 := AtWorker(2)];
    assert map[2 := Marking(2)][1 := Marking(1)] == map[1 := Marking(1), 2 := Marking(2)];
  }

  lemma SecondCloses(w: World)
    requires w.content == map[1 := Some(1), 2 := Some(1)] && w.rows == map[1 := Row(1, true, true, None)]
    requires 1 in w.subjects && w.subjects[1].phase == Done && w.workers == map[] && w.place == map[]
    ensures Run(At(w, 2, 2, Marking(2)), Closing(2)) == w
  {
    assert SubjectOf(w, 2) == Some(1);
    ClosingCloses(w, 2, 2);
    assert w.place - {2} == w.place;
  }

  lemma RowCloses()
    ensures CloseRows(map[1 := Row(1, true, false, None)], 1) == map[1 := Row(1, true, true, None)]
  {
  }

  lemma OneLeft(w: World)
    ensures At(w.(place := map[], workers := map[]), 2, 2, Marking(2)) == w.(place := map[2 := AtWorker(2)], workers := map[2 := Marking(2)])
  {
    assert map[][2 := AtWorker(2)] == map[2 := AtWorker(2)];
  }

  lemma BothClose(w: World)
    requires w.content == map[1 := Some(1), 2 := Some(1)] && w.rows == map[1 := Row(1, true, false, None)]
    requires 1 in w.subjects && w.subjects[1] == Subject(Waiting, Put(Knowledge(1), "claim"), false)
    ensures Run(BothAt(w, Marking(1), Marking(2)), Closing(1) + Closing(2)) == MarkDone(w, 1).(place := map[], workers := map[])
    ensures MarkDone(w, 1).rows == map[1 := Row(1, true, true, None)]
  {
    RunJoin(BothAt(w, Marking(1), Marking(2)), Closing(1), Closing(2));
    RowCloses();
    FirstCloses(w);
    OneLeft(MarkDone(w, 1));
    SecondCloses(MarkDone(w, 1).(place := map[], workers := map[]));
  }

  lemma TwiceRunEnds()
    ensures Run(START, TWICE_RUN)
         == Run(Run(Run(TwoMessages(Knowledge(1), "claim"), Asking(1, 1) + Asking(2, 2) + [Next(1, 0), Next(2, 0)]),
                    [Next(1, 1), Next(2, 2)]), Closing(1) + Closing(2))
  {
    var writes, closes := [Next(1, 1), Next(2, 2)], Closing(1) + Closing(2);
    assert TWICE_RUN == Offered(Knowledge(1), "claim") + (Asking(1, 1) + Asking(2, 2) + [Next(1, 0), Next(2, 0)]) + (writes + closes);
    RunParts(START, Offered(Knowledge(1), "claim"), Asking(1, 1) + Asking(2, 2) + [Next(1, 0), Next(2, 0)], writes + closes);
    OfferedTwice(Knowledge(1), "claim");
    RunJoin(Run(TwoMessages(Knowledge(1), "claim"), Asking(1, 1) + Asking(2, 2) + [Next(1, 0), Next(2, 0)]), writes, closes);
  }

  // One candidate, published once for the database, is in the graph twice.
  lemma CandidateIsPublishedTwice()
    ensures var w := Run(START, TWICE_RUN);
            && w.graph.copies == map[1 := CLAIM, 2 := CLAIM] && w.place == map[]
            && w.rows == map[1 := Row(1, true, true, None)]
  {
    var w := TwoMessages(Knowledge(1), "claim");
    var asked, looked := Asking(1, 1) + Asking(2, 2), [Next(1, 0), Next(2, 0)];
    TwiceRunEnds();
    BothAsk(w);
    RunJoin(w, asked, looked);
    BothLook(w);
    BothWrite(w);
    BothClose(w.(graph := Graph(map[1 := CLAIM, 2 := CLAIM], {Knowledge(1)}, {}, {1, 2})));
  }
}
