// Delivery of committed outbox events: relays publish them, workers project them into the memory
// graph and only then acknowledge, redrivers reopen dead letters. Any number of each run
// interleaved and any of them can die between two steps. The database, the broker and the graph
// are not lost.
module Outbox {
  import opened Common

  type Event = int
  type Aggregate = int
  type MessageId = int
  type LockId = int
  type Process = int
  type CopyId = int

  // A knowledge candidate is waiting while it is publishing and done once published; a private
  // memory command is waiting while it is accepted and done once applied.
  datatype Phase = Waiting | Done

  // What the graph keeps: the knowledge of one candidate, or one private memory item.
  datatype Node = Knowledge(candidate: Aggregate) | Item(id: int)

  // What a candidate or a command does to the graph. Retaining, importing and correcting an item
  // all put one; which items a correction supersedes is worked out by the readers.
  datatype Effect = Put(node: Node, text: string) | Erase(node: Node)

  // Completing an erasure takes the content out of the command that put the item.
  datatype Subject = Subject(phase: Phase, effect: Effect, redacted: bool)

  // The graph is a list of messages with ids of their own. `put`, `erased` and `used` are its
  // history: the nodes ever written, the nodes from which a copy was deleted, the ids drawn.
  datatype Copy = Copy(node: Node, text: string)

  datatype Graph = Graph(copies: map<CopyId, Copy>, put: set<Node>, erased: set<Node>, used: set<CopyId>)

  datatype Row = Row(subject: Aggregate, dispatched: bool, processed: bool, lock: Option<LockId>)

  // Where the broker has a message; acknowledged ones are nowhere. A message is leaving when a
  // redriver has reopened its row and is about to acknowledge it.
  datatype Place = InQueue | InDeadLetters | AtWorker(worker: Process) | AtRedriver(redriver: Process) | Leaving(redriver: Process)

  datatype RelayPc = Claimed(e: Event, lock: LockId) | Published(e: Event, lock: LockId, m: MessageId) | Releasing(e: Event, lock: LockId)

  // A projecting worker acts on the command as it read it; None is one without content. Writing
  // and deleting follow a look at the graph that found no copy of the node, or that copy.
  datatype WorkerPc =
    | Got(m: MessageId)
    | Projecting(m: MessageId, seen: Option<Effect>)
    | Writing(m: MessageId, node: Node, text: string)
    | Deleting(m: MessageId, node: Node, copy: CopyId)
    | Marking(m: MessageId)
    | Acking(m: MessageId)
    | Rejecting(m: MessageId)

  datatype RedriverPc = Scanning(target: Event) | Found(target: Event, m: MessageId) | AckDue(m: MessageId) | Finishing

  // `content` says which event a message names; None is a body that does not decode. `owners`
  // says which candidate or command put a node.
  datatype World = World(
    rows: map<Event, Row>,
    subjects: map<Aggregate, Subject>,
    owners: map<Node, Aggregate>,
    graph: Graph,
    content: map<MessageId, Option<Event>>,
    place: map<MessageId, Place>,
    relays: map<Process, RelayPc>,
    workers: map<Process, WorkerPc>,
    redrivers: map<Process, RedriverPc>,
    usedLocks: set<LockId>)

  const START := World(map[], map[], map[], Graph(map[], {}, {}, {}), map[], map[], map[], map[], map[], {})

  // Steps that only move messages and processes along.
  predicate OnlyMoves(w: World, w': World) {
    && w'.rows == w.rows && w'.subjects == w.subjects && w'.owners == w.owners && w'.graph == w.graph
    && w'.content == w.content && w'.usedLocks == w.usedLocks
  }

  // ---------------------------------------------------------------------------
  // The database
  // ---------------------------------------------------------------------------

  predicate ErasureDone(subjects: map<Aggregate, Subject>, n: Node) {
    exists a | a in subjects :: subjects[a].effect == Erase(n) && subjects[a].phase == Done
  }

  // A node is put by one candidate or command, under an id that was never used before. An erasure
  // is requested for an item found in the graph, and refused once the item is erased.
  predicate Acceptable(w: World, a: Aggregate, effect: Effect) {
    match effect
    case Put(n, _) => n !in w.owners && (n.Knowledge? ==> n.candidate == a)
    case Erase(n) => n.Item? && n in w.graph.put && !ErasureDone(w.subjects, n)
  }

  // The transaction that approves a candidate or accepts a command also writes its event.
  function Commit(w: World, e: Event, a: Aggregate, effect: Effect): (w': World)
    ensures w'.graph == w.graph && w'.workers == w.workers && w'.place == w.place
  {
    if e in w.rows || a in w.subjects || !Acceptable(w, a, effect) then w
    else w.(rows := w.rows[e := Row(a, false, false, None)],
            subjects := w.subjects[a := Subject(Waiting, effect, false)],
            owners := if effect.Put? then w.owners[effect.node := a] else w.owners)
  }

  predicate Claimable(row: Row, expired: bool) {
    !row.dispatched && !row.processed && (row.lock.None? || expired)
  }

  function Relock(w: World, e: Event, lock: Option<LockId>): World
    requires e in w.rows
  {
    w.(rows := w.rows[e := w.rows[e].(lock := lock)])
  }

  predicate HoldsLock(w: World, e: Event, lock: LockId) {
    e in w.rows && w.rows[e].lock == Some(lock) && !w.rows[e].dispatched
  }

  // Publishing a candidate, or applying a command, and closing its events is one transaction.
  function MarkDone(w: World, a: Aggregate): (w': World)
    requires a in w.subjects
    ensures w'.graph == w.graph && w'.workers == w.workers && w'.place == w.place
  {
    if w.subjects[a].phase == Done then w
    else w.(subjects := CloseSubject(w.subjects, w.owners, a), rows := CloseRows(w.rows, a))
  }

  // An applied erasure redacts the command that put the item.
  function CloseSubject(subjects: map<Aggregate, Subject>, owners: map<Node, Aggregate>,
          a: Aggregate): map<Aggregate, Subject>
    requires a in subjects
  {
    var closed := subjects[a := subjects[a].(phase := Done)];
    if subjects[a].effect.Put? then closed else Redact(closed, owners, subjects[a].effect.node)
  }

  function Redact(subjects: map<Aggregate, Subject>, owners: map<Node, Aggregate>, n: Node): map<Aggregate, Subject> {
    if n in owners && owners[n] in subjects then subjects[owners[n] := subjects[owners[n]].(redacted := true)] else subjects
  }

  function CloseRows(rows: map<Event, Row>, a: Aggregate): map<Event, Row> {
    map e | e in rows :: if rows[e].subject == a then rows[e].(processed := true, lock := None) else rows[e]
  }

  function Reopen(w: World, e: Event): World
    requires e in w.rows
  {
    w.(rows := w.rows[e := w.rows[e].(dispatched := false, lock := None)])
  }

  // ---------------------------------------------------------------------------
  // The graph
  // ---------------------------------------------------------------------------

  predicate Present(g: Graph, n: Node) {
    exists c | c in g.copies :: g.copies[c].node == n
  }

  function Added(g: Graph, c: CopyId, n: Node, text: string): Graph {
    g.(copies := g.copies[c := Copy(n, text)], put := g.put + {n}, used := g.used + {c})
  }

  function Deleted(g: Graph, c: CopyId, n: Node): Graph {
    g.(copies := g.copies - {c}, erased := g.erased + {n})
  }

  // ---------------------------------------------------------------------------
  // The relay
  // ---------------------------------------------------------------------------

  function RelayClaim(w: World, r: Process, e: Event, lock: LockId, expired: bool): (w': World)
    ensures w'.graph == w.graph && w'.workers == w.workers && w'.place == w.place
  {
    if r in w.relays || lock in w.usedLocks || e !in w.rows || !Claimable(w.rows[e], expired) then w
    else Relock(w, e, Some(lock)).(relays := w.relays[r := Claimed(e, lock)], usedLocks := w.usedLocks + {lock})
  }

  // The broker can confirm, fail without storing the message, or store it and fail to say so.
  datatype Outcome = Confirmed | Unconfirmed | Refused

  function RelayPublish(w: World, r: Process, m: MessageId, outcome: Outcome): (w': World)
    ensures w'.rows == w.rows && w'.graph == w.graph && w'.workers == w.workers
  {
    if r !in w.relays || !w.relays[r].Claimed? || m in w.content then w
    else
      var pc := w.relays[r];
      var w1 := if outcome == Refused then w
                else w.(content := w.content[m := Some(pc.e)], place := w.place[m := InQueue]);
      w1.(relays := w.relays[r := if outcome == Confirmed then Published(pc.e, pc.lock, m) else Releasing(pc.e, pc.lock)])
  }

  // mark_outbox_dispatched and release_outbox: a conditional update of the row.
  function Unlock(rows: map<Event, Row>, e: Event, lock: LockId, dispatched: bool): (rows': map<Event, Row>)
    ensures forall i | i in rows :: i in rows' && rows'[i].subject == rows[i].subject && rows'[i].processed == rows[i].processed
  {
    if e in rows && rows[e].lock == Some(lock) && !rows[e].dispatched then rows[e := rows[e].(dispatched := dispatched, lock := None)]
    else rows
  }

  function RelayFinish(w: World, r: Process): (w': World)
    ensures w'.graph == w.graph && w'.workers == w.workers && w'.place == w.place
  {
    if r !in w.relays || w.relays[r].Claimed? then w
    else
      var pc := w.relays[r];
      w.(rows := Unlock(w.rows, pc.e, pc.lock, pc.Published?), relays := w.relays - {r})
  }

  function RelayCrash(w: World, r: Process): (w': World)
    ensures OnlyMoves(w, w') && w'.workers == w.workers && w'.place == w.place
  {
    w.(relays := w.relays - {r})
  }

  // ---------------------------------------------------------------------------
  // The worker
  // ---------------------------------------------------------------------------

  function Deliver(w: World, x: Process, m: MessageId): (w': World)
    ensures OnlyMoves(w, w')
  {
    if x in w.workers || m !in w.place || w.place[m] != InQueue then w
    else w.(place := w.place[m := AtWorker(x)], workers := w.workers[x := Got(m)])
  }

  function SubjectOf(w: World, m: MessageId): Option<Aggregate> {
    if m in w.content && w.content[m].Some? && w.content[m].value in w.rows then Some(w.rows[w.content[m].value].subject) else None
  }

  // The database is read once, before the graph is touched.
  function Ready(w: World, m: MessageId): (pc: WorkerPc)
    ensures pc.m == m
  {
    var a := SubjectOf(w, m);
    if a.None? || a.value !in w.subjects then Rejecting(m)
    else if w.subjects[a.value].phase == Done then Acking(m)
    else Projecting(m, if w.subjects[a.value].redacted then None else Some(w.subjects[a.value].effect))
  }

  function Goes(w: World, x: Process, pc: WorkerPc): (w': World)
    ensures OnlyMoves(w, w') && w'.place == w.place
  {
    w.(workers := w.workers[x := pc])
  }

  // A look at the graph. A node that is there is not written again, and one that is not there is
  // not deleted again. `copy` is the copy an erasure comes upon.
  function Project(g: Graph, pc: WorkerPc, copy: CopyId): (pc': WorkerPc)
    requires pc.Projecting?
    ensures pc'.m == pc.m
  {
    match pc.seen
    case None => Rejecting(pc.m)
    case Some(Put(n, text)) => if Present(g, n) then Marking(pc.m) else Writing(pc.m, n, text)
    case Some(Erase(n)) =>
      if !Present(g, n) then Marking(pc.m)
      else if copy in g.copies && g.copies[copy].node == n then Deleting(pc.m, n, copy)
      else pc
  }

  function Write(w: World, x: Process, pc: WorkerPc, copy: CopyId): (w': World)
    requires pc.Writing?
    ensures w'.place == w.place && w'.rows == w.rows && w'.subjects == w.subjects
  {
    if copy in w.graph.used then w else Goes(w, x, Marking(pc.m)).(graph := Added(w.graph, copy, pc.node, pc.text))
  }

  function Delete(w: World, x: Process, pc: WorkerPc): (w': World)
    requires pc.Deleting?
    ensures w'.place == w.place && w'.rows == w.rows && w'.subjects == w.subjects
  {
    Goes(w, x, Marking(pc.m)).(graph := Deleted(w.graph, pc.copy, pc.node))
  }

  function Mark(w: World, x: Process, m: MessageId): (w': World)
    ensures w'.place == w.place && w'.graph == w.graph
  {
    var a := SubjectOf(w, m);
    if a.None? || a.value !in w.subjects then Goes(w, x, Rejecting(m)) else Goes(MarkDone(w, a.value), x, Acking(m))
  }

  function Acknowledge(w: World, x: Process, m: MessageId): (w': World)
    ensures OnlyMoves(w, w')
  {
    w.(place := w.place - {m}, workers := w.workers - {x})
  }

  // A call that succeeds.
  function Proceed(w: World, x: Process, pc: WorkerPc, copy: CopyId): (w': World)
    requires pc.Got? || pc.Projecting? || pc.Writing? || pc.Deleting? || pc.Marking?
    ensures w'.place == w.place
  {
    match pc
    case Got(m) => Goes(w, x, Ready(w, m))
    case Projecting(_, _) => Goes(w, x, Project(w.graph, pc, copy))
    case Writing(_, _, _) => Write(w, x, pc, copy)
    case Deleting(_, _, _) => Delete(w, x, pc)
    case Marking(m) => Mark(w, x, m)
  }

  // One step of a worker inside `handle`; `ok` says whether the call it makes succeeds, `copy`
  // is the graph's part in it.
  function Work(w: World, x: Process, ok: bool, toDead: bool, copy: CopyId): World {
    if x !in w.workers then w
    else
      var pc := w.workers[x];
      if pc.Acking? then Acknowledge(w, x, pc.m)
      else if pc.Rejecting? then Return(w, x, pc.m, toDead)
      else if ok then Proceed(w, x, pc, copy)
      else Goes(w, x, Rejecting(pc.m))
  }

  // The broker takes an unacknowledged message back, or past its delivery limit dead-letters it.
  function Return(w: World, x: Process, m: MessageId, toDead: bool): (w': World)
    ensures OnlyMoves(w, w') && w'.place.Keys == w.place.Keys
  {
    w.(place := if m in w.place then w.place[m := if toDead then InDeadLetters else InQueue] else w.place,
       workers := w.workers - {x})
  }

  function WorkerCrash(w: World, x: Process, toDead: bool): (w': World)
    ensures OnlyMoves(w, w')
  {
    if x !in w.workers then w else Return(w, x, w.workers[x].m, toDead)
  }

  // ---------------------------------------------------------------------------
  // The redriver
  // ---------------------------------------------------------------------------

  function RedriveGet(w: World, d: Process, target: Event, m: MessageId): (w': World)
    ensures OnlyMoves(w, w') && w'.workers == w.workers
  {
    if m !in w.place || w.place[m] != InDeadLetters || m !in w.content then w
    else if d in w.redrivers && w.redrivers[d] != Scanning(target) then w
    else w.(place := w.place[m := AtRedriver(d)],
            redrivers := w.redrivers[d := if w.content[m] == Some(target) then Found(target, m) else Scanning(target)])
  }

  function BackFrom(w: World, d: Process): map<MessageId, Place> {
    map m | m in w.place :: if w.place[m] == AtRedriver(d) || w.place[m] == Leaving(d) then InDeadLetters else w.place[m]
  }

  function GiveBack(w: World, d: Process, m: MessageId): (w': World)
    ensures OnlyMoves(w, w') && w'.workers == w.workers
  {
    w.(place := w.place[m := InDeadLetters], redrivers := w.redrivers[d := Finishing])
  }

  // The row is reopened before the dead letter is acknowledged.
  function Reschedule(w: World, d: Process, target: Event, m: MessageId, ok: bool): World {
    if !ok || target !in w.rows || w.rows[target].processed then GiveBack(w, d, m)
    else Reopen(w, target).(place := w.place[m := Leaving(d)], redrivers := w.redrivers[d := AckDue(m)])
  }

  function Settle(w: World, d: Process, m: MessageId, ok: bool): (w': World)
    ensures OnlyMoves(w, w') && w'.workers == w.workers
  {
    if ok then w.(place := w.place - {m}, redrivers := w.redrivers[d := Finishing]) else GiveBack(w, d, m)
  }

  // One step of a redriver; `ok` says whether the database or broker call succeeds.
  function Redrive(w: World, d: Process, ok: bool): (w': World)
    ensures w'.graph == w.graph && w'.workers == w.workers
  {
    if d !in w.redrivers then w
    else match w.redrivers[d]
      case Scanning(target) => w.(redrivers := w.redrivers[d := Finishing])
      case Found(target, m) => Reschedule(w, d, target, m, ok)
      case AckDue(m) => Settle(w, d, m, ok)
      case Finishing => RedriverCrash(w, d)
  }

  function RedriverCrash(w: World, d: Process): (w': World)
    ensures OnlyMoves(w, w') && w'.workers == w.workers
  {
    w.(place := BackFrom(w, d), redrivers := w.redrivers - {d})
  }

  // Anything at all can get into the queue.
  function Stray(w: World, m: MessageId): (w': World)
    ensures w'.rows == w.rows && w'.graph == w.graph && w'.workers == w.workers
  {
    if m in w.content then w else w.(content := w.content[m := None], place := w.place[m := InQueue])
  }

  datatype Step =
    | CommitStep(e: Event, a: Aggregate, effect: Effect)
    | StrayStep(m: MessageId)
    | ClaimStep(r: Process, e: Event, lock: LockId, expired: bool)
    | PublishStep(r: Process, m: MessageId, outcome: Outcome)
    | RelayStep(r: Process)
    | RelayCrashStep(r: Process)
    | DeliverStep(x: Process, m: MessageId)
    | WorkStep(x: Process, ok: bool, toDead: bool, copy: CopyId)
    | WorkerCrashStep(x: Process, toDead: bool)
    | GetStep(d: Process, target: Event, m: MessageId)
    | RedriveStep(d: Process, ok: bool)
    | RedriverCrashStep(d: Process)

  function Apply(w: World, st: Step): World {
    match st
    case CommitStep(e, a, effect) => Commit(w, e, a, effect)
    case StrayStep(m) => Stray(w, m)
    case ClaimStep(r, e, lock, expired) => RelayClaim(w, r, e, lock, expired)
    case PublishStep(r, m, outcome) => RelayPublish(w, r, m, outcome)
    case RelayStep(r) => RelayFinish(w, r)
    case RelayCrashStep(r) => RelayCrash(w, r)
    case DeliverStep(x, m) => Deliver(w, x, m)
    case WorkStep(x, ok, toDead, copy) => Work(w, x, ok, toDead, copy)
    case WorkerCrashStep(x, toDead) => WorkerCrash(w, x, toDead)
    case GetStep(d, target, m) => RedriveGet(w, d, target, m)
    case RedriveStep(d, ok) => Redrive(w, d, ok)
    case RedriverCrashStep(d) => RedriverCrash(w, d)
  }

  function Run(w: World, steps: seq<Step>): World
    decreases |steps|
  {
    if steps == [] then w else Run(Apply(w, steps[0]), steps[1..])
  }

  // A call of a worker that goes well.
  function Next(x: Process, copy: CopyId): Step {
    WorkStep(x, true, false, copy)
  }

  lemma {:induction false} RunJoin(w: World, a: seq<Step>, b: seq<Step>)
    ensures Run(w, a + b) == Run(Run(w, a), b)
    decreases |a|
  {
    if a == [] {
      assert a + b == b;
    } else {
      assert (a + b)[1..] == a[1..] + b;
      RunJoin(Apply(w, a[0]), a[1..], b);
    }
  }

  lemma RunOne(w: World, st: Step)
    ensures Run(w, [st]) == Apply(w, st)
  {
    assert [st][1..] == [];
  }

  // ---------------------------------------------------------------------------
  // The invariant
  // ---------------------------------------------------------------------------

  // A message that will come to a worker again unless the event is processed.
  predicate IsCopy(w: World, m: MessageId, e: Event) {
    m in w.place && !w.place[m].Leaving? && m in w.content && w.content[m] == Some(e)
  }

  ghost predicate HasCopy(w: World, e: Event) {
    exists m :: IsCopy(w, m, e)
  }

  predicate Projected(g: Graph, effect: Effect) {
    match effect
    case Put(n, _) => n in g.put
    case Erase(n) => n in g.erased
  }

  predicate RowFits(w: World, e: Event)
    requires e in w.rows
  {
    var row := w.rows[e];
    && row.subject in w.subjects
    && (row.processed <==> w.subjects[row.subject].phase == Done)
    && (row.lock.Some? ==> row.lock.value in w.usedLocks && !row.processed)
  }

  // The heart of it: an event that still matters is in the outbox to be relayed, or on its way.
  ghost predicate IsLive(w: World, e: Event)
    requires e in w.rows
  {
    w.rows[e].processed || !w.rows[e].dispatched || HasCopy(w, e)
  }

  ghost predicate RowsFit(w: World) {
    forall e | e in w.rows :: RowFits(w, e) && IsLive(w, e)
  }

  predicate Owned(w: World, n: Node, text: string) {
    n in w.owners && w.owners[n] in w.subjects && w.subjects[w.owners[n]].effect == Put(n, text)
  }

  predicate SubjectFits(w: World, a: Aggregate)
    requires a in w.subjects
  {
    var s := w.subjects[a];
    && (s.effect.Put? ==> s.effect.node in w.owners && w.owners[s.effect.node] == a)
    && (s.effect.Erase? ==> s.effect.node.Item? && s.effect.node in w.graph.put && !s.redacted)
    && (s.phase == Done ==> Projected(w.graph, s.effect))
  }

  predicate OwnerFits(w: World, n: Node)
    requires n in w.owners
  {
    w.owners[n] in w.subjects && w.subjects[w.owners[n]].effect.Put? && w.subjects[w.owners[n]].effect.node == n
  }

  ghost predicate SubjectsFit(w: World) {
    && (forall a | a in w.subjects :: SubjectFits(w, a))
    && (forall n | n in w.owners :: OwnerFits(w, n))
  }

  ghost predicate Erasing(w: World, n: Node) {
    exists a | a in w.subjects :: w.subjects[a].effect == Erase(n)
  }

  predicate CopyFits(w: World, c: CopyId)
    requires c in w.graph.copies
  {
    c in w.graph.used && w.graph.copies[c].node in w.graph.put && Owned(w, w.graph.copies[c].node, w.graph.copies[c].text)
  }

  // What was once put is there or was erased; what was erased was asked for.
  ghost predicate GraphFits(w: World) {
    && (forall c | c in w.graph.copies :: CopyFits(w, c))
    && (forall n | n in w.graph.put :: n in w.owners && (Present(w.graph, n) || n in w.graph.erased))
    && (forall n | n in w.graph.erased :: n.Item? && n in w.graph.put && Erasing(w, n))
  }

  ghost predicate MessagesFit(w: World) {
    && (forall m | m in w.place :: m in w.content)
    && (forall m | m in w.content && w.content[m].Some? :: w.content[m].value in w.rows)
  }

  predicate RelayFits(w: World, pc: RelayPc) {
    && pc.e in w.rows && pc.lock in w.usedLocks
    && (pc.Published? && w.rows[pc.e].lock == Some(pc.lock) ==> IsCopy(w, pc.m, pc.e))
  }

  predicate Aims(w: World, m: MessageId, effect: Effect) {
    var a := SubjectOf(w, m);
    a.Some? && a.value in w.subjects && w.subjects[a.value].effect == effect
  }

  predicate Carried(w: World, m: MessageId) {
    var a := SubjectOf(w, m);
    a.Some? && a.value in w.subjects && Projected(w.graph, w.subjects[a.value].effect)
  }

  predicate TakenOrGone(g: Graph, c: CopyId, n: Node) {
    c in g.used && if c in g.copies then g.copies[c].node == n else n in g.erased
  }

  predicate WorkerFits(w: World, x: Process, pc: WorkerPc) {
    && pc.m in w.place && w.place[pc.m] == AtWorker(x) && pc.m in w.content
    && match pc
       case Projecting(m, seen) => SubjectOf(w, m).Some? && (seen.Some? ==> Aims(w, m, seen.value))
       case Writing(m, n, text) => Aims(w, m, Put(n, text))
       case Deleting(m, n, c) => Aims(w, m, Erase(n)) && n in w.graph.put && TakenOrGone(w.graph, c, n)
       case Marking(m) => Carried(w, m)
       case Acking(m) => w.content[m].Some? && w.content[m].value in w.rows && w.rows[w.content[m].value].processed
       case _ => true
  }

  predicate RedriverFits(w: World, d: Process, pc: RedriverPc) {
    && (pc.Found? ==> pc.m in w.place && w.place[pc.m] == AtRedriver(d) && pc.m in w.content && w.content[pc.m] == Some(pc.target))
    && (pc.AckDue? ==> pc.m in w.place && w.place[pc.m] == Leaving(d))
  }

  ghost predicate RelaysFit(w: World) {
    forall r | r in w.relays :: RelayFits(w, w.relays[r])
  }

  ghost predicate WorkersFit(w: World) {
    forall x | x in w.workers :: WorkerFits(w, x, w.workers[x])
  }

  ghost predicate RedriversFit(w: World) {
    forall d | d in w.redrivers :: RedriverFits(w, d, w.redrivers[d])
  }

  ghost predicate Inv(w: World) {
    RowsFit(w) && SubjectsFit(w) && GraphFits(w) && MessagesFit(w) && RelaysFit(w) && WorkersFit(w) && RedriversFit(w)
  }

  // ---------------------------------------------------------------------------
  // What no step takes back
  // ---------------------------------------------------------------------------

  // Rows are never removed, and a processed one never reopened.
  predicate RowStays(w: World, w': World, e: Event)
    requires e in w.rows
  {
    e in w'.rows && w'.rows[e].subject == w.rows[e].subject && (w.rows[e].processed ==> w'.rows[e].processed)
  }

  predicate SubjectStays(w: World, w': World, a: Aggregate)
    requires a in w.subjects
  {
    && a in w'.subjects && w'.subjects[a].effect == w.subjects[a].effect
    && (w.subjects[a].phase == Done ==> w'.subjects[a].phase == Done)
    && (w.subjects[a].redacted ==> w'.subjects[a].redacted)
  }

  ghost predicate LedgerStays(w: World, w': World) {
    && (forall e | e in w.rows :: RowStays(w, w', e))
    && (forall a | a in w.subjects :: SubjectStays(w, w', a))
    && (forall n | n in w.owners :: n in w'.owners && w'.owners[n] == w.owners[n])
    && (forall m | m in w.content :: m in w'.content && w'.content[m] == w.content[m])
    && w.usedLocks <= w'.usedLocks
  }

  // A copy goes only by an erasure of its node, and its id is never given to another.
  ghost predicate GraphStays(g: Graph, g': Graph) {
    && g.put <= g'.put && g.erased <= g'.erased && g.used <= g'.used
    && (forall c | c in g.copies :: if c in g'.copies then g'.copies[c] == g.copies[c] else g.copies[c].node in g'.erased)
    && (forall c | c in g'.copies && c in g.used :: c in g.copies)
  }

  ghost predicate Grows(w: World, w': World) {
    LedgerStays(w, w') && GraphStays(w.graph, w'.graph)
  }

  lemma GraphsGrow(g: Graph, c: CopyId, n: Node, text: string)
    requires forall d | d in g.copies :: d in g.used
    ensures c !in g.used ==> GraphStays(g, Added(g, c, n, text))
    ensures c in g.copies ==> g.copies[c].node == n ==> GraphStays(g, Deleted(g, c, n))
    ensures c !in g.copies ==> GraphStays(g, Deleted(g, c, n))
  {
  }

  lemma MovesGrow(w: World, w': World)
    requires OnlyMoves(w, w')
    ensures Grows(w, w')
  {
  }

  lemma MarkDoneGrows(w: World, a: Aggregate)
    requires a in w.subjects
    ensures LedgerStays(w, MarkDone(w, a))
  {
  }

  lemma ProceedGrows(w: World, x: Process, pc: WorkerPc, copy: CopyId)
    requires Inv(w) && x in w.workers && w.workers[x] == pc
    requires pc.Got? || pc.Projecting? || pc.Writing? || pc.Deleting? || pc.Marking?
    ensures Grows(w, Proceed(w, x, pc, copy))
  {
    assert WorkerFits(w, x, pc);
    forall d | d in w.graph.copies ensures d in w.graph.used { assert CopyFits(w, d); }
    match pc
    case Got(m) => MovesGrow(w, Goes(w, x, Ready(w, m)));
    case Projecting(_, _) => MovesGrow(w, Goes(w, x, Project(w.graph, pc, copy)));
    case Writing(_, n, text) => GraphsGrow(w.graph, copy, n, text);
    case Deleting(_, n, c) => GraphsGrow(w.graph, c, n, "");
    case Marking(m) => MarkDoneGrows(w, SubjectOf(w, m).value);
  }

  lemma CommitGrows(w: World, e: Event, a: Aggregate, effect: Effect)
    ensures LedgerStays(w, Commit(w, e, a, effect))
  {
  }

  lemma ClaimGrows(w: World, r: Process, e: Event, lock: LockId, expired: bool)
    ensures LedgerStays(w, RelayClaim(w, r, e, lock, expired))
  {
  }

  lemma PublishGrows(w: World, r: Process, m: MessageId, outcome: Outcome)
    ensures LedgerStays(w, RelayPublish(w, r, m, outcome))
  {
  }

  lemma StrayGrows(w: World, m: MessageId)
    ensures LedgerStays(w, Stray(w, m))
  {
  }

  lemma FinishGrows(w: World, r: Process)
    ensures LedgerStays(w, RelayFinish(w, r))
  {
  }

  lemma WorkGrows(w: World, x: Process, ok: bool, toDead: bool, copy: CopyId)
    requires Inv(w)
    ensures Grows(w, Work(w, x, ok, toDead, copy))
  {
    if x in w.workers && ok && !w.workers[x].Acking? && !w.workers[x].Rejecting? {
      ProceedGrows(w, x, w.workers[x], copy);
    } else {
      MovesGrow(w, Work(w, x, ok, toDead, copy));
    }
  }

  lemma ReopenGrows(w: World, e: Event, w': World)
    requires e in w.rows && OnlyMoves(Reopen(w, e), w')
    ensures LedgerStays(w, w')
  {
  }

  lemma RedriveGrows(w: World, d: Process, ok: bool)
    ensures Grows(w, Redrive(w, d, ok))
  {
    var w' := Redrive(w, d, ok);
    if d in w.redrivers && w.redrivers[d].Found? {
      var target := w.redrivers[d].target;
      if !ok || target !in w.rows || w.rows[target].processed { MovesGrow(w, w'); } else { ReopenGrows(w, target, w'); }
    } else {
      MovesGrow(w, w');
    }
  }

  lemma StepGrows(w: World, st: Step)
    requires Inv(w)
    ensures Grows(w, Apply(w, st))
  {
    match st
    case CommitStep(e, a, effect) => CommitGrows(w, e, a, effect);
    case StrayStep(m) => StrayGrows(w, m);
    case ClaimStep(r, e, lock, expired) => ClaimGrows(w, r, e, lock, expired);
    case PublishStep(r, m, outcome) => PublishGrows(w, r, m, outcome);
    case RelayStep(r) => FinishGrows(w, r);
    case WorkStep(x, ok, toDead, copy) => WorkGrows(w, x, ok, toDead, copy);
    case RedriveStep(d, ok) => RedriveGrows(w, d, ok);
    case _ => MovesGrow(w, Apply(w, st));
  }

  // ---------------------------------------------------------------------------
  // Every step keeps the invariant
  // ---------------------------------------------------------------------------

  ghost predicate CopiesStay(w: World, w': World) {
    forall m, e :: IsCopy(w, m, e) ==> IsCopy(w', m, e)
  }

  lemma StillLive(w: World, w': World, e: Event)
    requires e in w.rows && IsLive(w, e) && CopiesStay(w, w')
    requires e in w'.rows && (w.rows[e].processed ==> w'.rows[e].processed)
    requires w'.rows[e].dispatched ==> w.rows[e].dispatched || w'.rows[e].processed || HasCopy(w', e)
    ensures IsLive(w', e)
  {
    if HasCopy(w, e) {
      var m :| IsCopy(w, m, e);
      assert IsCopy(w', m, e);
    }
  }

  lemma RowsKept(w: World, w': World)
    requires RowsFit(w) && w'.rows == w.rows && w'.subjects == w.subjects && w.usedLocks <= w'.usedLocks && CopiesStay(w, w')
    ensures RowsFit(w')
  {
    forall e | e in w'.rows ensures RowFits(w', e) && IsLive(w', e) {
      assert RowFits(w, e);
      StillLive(w, w', e);
    }
  }

  lemma SubjectsKept(w: World, w': World)
    requires SubjectsFit(w) && w'.subjects == w.subjects && w'.owners == w.owners
    requires w.graph.put <= w'.graph.put && w.graph.erased <= w'.graph.erased
    ensures SubjectsFit(w')
  {
    forall a | a in w'.subjects ensures SubjectFits(w', a) { assert SubjectFits(w, a); }
    forall n | n in w'.owners ensures OwnerFits(w', n) { assert OwnerFits(w, n); }
  }

  lemma ErasingStays(w: World, w': World, n: Node)
    requires Erasing(w, n) && forall a | a in w.subjects :: SubjectStays(w, w', a)
    ensures Erasing(w', n)
  {
    var a :| a in w.subjects && w.subjects[a].effect == Erase(n);
    assert SubjectStays(w, w', a);
  }

  lemma OwnedStays(w: World, w': World, n: Node, text: string)
    requires Owned(w, n, text) && LedgerStays(w, w')
    ensures Owned(w', n, text)
  {
    assert SubjectStays(w, w', w.owners[n]);
  }

  lemma GraphKept(w: World, w': World)
    requires GraphFits(w) && w'.graph == w.graph && LedgerStays(w, w')
    ensures GraphFits(w')
  {
    forall c | c in w'.graph.copies ensures CopyFits(w', c) {
      assert CopyFits(w, c);
      OwnedStays(w, w', w.graph.copies[c].node, w.graph.copies[c].text);
    }
    forall n | n in w'.graph.erased ensures Erasing(w', n) { ErasingStays(w, w', n); }
  }

  lemma RelaysKept(w: World, w': World)
    requires RelaysFit(w) && CopiesStay(w, w') && w.usedLocks <= w'.usedLocks
    requires forall r | r in w'.relays :: r in w.relays && w'.relays[r] == w.relays[r]
    requires forall e | e in w.rows :: e in w'.rows && (w'.rows[e].lock == w.rows[e].lock || w'.rows[e].lock == None)
    ensures RelaysFit(w')
  {
    forall r | r in w'.relays ensures RelayFits(w', w'.relays[r]) { assert RelayFits(w, w.relays[r]); }
  }

  lemma AimStays(w: World, w': World, m: MessageId, effect: Effect)
    requires LedgerStays(w, w')
    ensures SubjectOf(w, m).Some? ==> SubjectOf(w', m) == SubjectOf(w, m)
    ensures Aims(w, m, effect) ==> Aims(w', m, effect)
  {
    if SubjectOf(w, m).Some? {
      var a := SubjectOf(w, m).value;
      assert RowStays(w, w', w.content[m].value);
      if a in w.subjects { assert SubjectStays(w, w', a); }
    }
  }

  lemma TakenStays(g: Graph, g': Graph, c: CopyId, n: Node)
    requires TakenOrGone(g, c, n) && GraphStays(g, g')
    ensures TakenOrGone(g', c, n)
  {
  }

  lemma CarriedStays(w: World, w': World, m: MessageId)
    requires Grows(w, w') && Carried(w, m)
    ensures Carried(w', m)
  {
    var a := SubjectOf(w, m).value;
    AimStays(w, w', m, w.subjects[a].effect);
    assert SubjectStays(w, w', a);
  }

  lemma WorkerKept(w: World, w': World, x: Process, pc: WorkerPc)
    requires WorkerFits(w, x, pc) && Grows(w, w')
    requires pc.m in w'.place && w'.place[pc.m] == AtWorker(x)
    ensures WorkerFits(w', x, pc)
  {
    match pc
    case Projecting(m, seen) => AimStays(w, w', m, if seen.Some? then seen.value else Erase(Item(0)));
    case Writing(m, n, text) => AimStays(w, w', m, Put(n, text));
    case Deleting(m, n, c) => AimStays(w, w', m, Erase(n)); TakenStays(w.graph, w'.graph, c, n);
    case Marking(m) => CarriedStays(w, w', m);
    case Acking(m) => assert RowStays(w, w', w.content[m].value);
    case _ =>
  }

  lemma WorkersKept(w: World, w': World)
    requires WorkersFit(w) && Grows(w, w') && w'.workers == w.workers
    requires forall m | m in w.place && w.place[m].AtWorker? :: m in w'.place && w'.place[m] == w.place[m]
    ensures WorkersFit(w')
  {
    forall x | x in w'.workers ensures WorkerFits(w', x, w'.workers[x]) {
      assert WorkerFits(w, x, w.workers[x]);
      WorkerKept(w, w', x, w.workers[x]);
    }
  }

  // All workers but one are where they were.
  lemma OtherWorkersKept(w: World, w': World, x: Process)
    requires WorkersFit(w) && Grows(w, w') && w'.workers - {x} == w.workers - {x}
    requires forall m | m in w.place && w.place[m].AtWorker? && w.place[m].worker != x :: m in w'.place && w'.place[m] == w.place[m]
    requires x in w'.workers ==> WorkerFits(w', x, w'.workers[x])
    ensures WorkersFit(w')
  {
    forall y | y in w'.workers ensures WorkerFits(w', y, w'.workers[y]) {
      if y != x {
        assert y in w'.workers - {x};
        assert WorkerFits(w, y, w.workers[y]);
        WorkerKept(w, w', y, w.workers[y]);
      }
    }
  }

  lemma RedriversKept(w: World, w': World)
    requires RedriversFit(w) && w'.redrivers == w.redrivers
    requires forall m | m in w.place && (w.place[m].AtRedriver? || w.place[m].Leaving?) :: m in w'.place && w'.place[m] == w.place[m]
    requires forall m | m in w.content :: m in w'.content && w'.content[m] == w.content[m]
    ensures RedriversFit(w')
  {
    forall d | d in w'.redrivers ensures RedriverFits(w', d, w'.redrivers[d]) { assert RedriverFits(w, d, w.redrivers[d]); }
  }

  lemma OtherRedriversKept(w: World, w': World, d: Process)
    requires RedriversFit(w) && w'.redrivers - {d} == w.redrivers - {d} && w'.content == w.content
    requires forall m | m in w.place && (w.place[m].AtRedriver? || w.place[m].Leaving?) && w.place[m].redriver != d ::
               m in w'.place && w'.place[m] == w.place[m]
    requires d in w'.redrivers ==> RedriverFits(w', d, w'.redrivers[d])
    ensures RedriversFit(w')
  {
    forall c | c in w'.redrivers ensures RedriverFits(w', c, w'.redrivers[c]) {
      if c != d {
        assert c in w'.redrivers - {d};
        assert RedriverFits(w, c, w.redrivers[c]);
      }
    }
  }

  // The ledger and the graph do not change.
  lemma LedgerKept(w: World, w': World)
    requires SubjectsFit(w) && GraphFits(w) && LedgerStays(w, w')
    requires w'.subjects == w.subjects && w'.owners == w.owners && w'.graph == w.graph
    ensures SubjectsFit(w') && GraphFits(w')
  {
    SubjectsKept(w, w');
    GraphKept(w, w');
  }

  // ---- commit ----

  lemma CommitKeepsLedger(w: World, e: Event, a: Aggregate, effect: Effect)
    requires Inv(w)
    ensures SubjectsFit(Commit(w, e, a, effect)) && GraphFits(Commit(w, e, a, effect))
  {
    var w' := Commit(w, e, a, effect);
    CommitGrows(w, e, a, effect);
    GraphKept(w, w');
    forall b | b in w'.subjects ensures SubjectFits(w', b) { if b in w.subjects { assert SubjectFits(w, b); } }
    forall n | n in w'.owners ensures OwnerFits(w', n) { if n in w.owners { assert OwnerFits(w, n); } }
  }

  lemma CommitKeepsRows(w: World, e: Event, a: Aggregate, effect: Effect)
    requires Inv(w)
    ensures RowsFit(Commit(w, e, a, effect))
  {
    var w' := Commit(w, e, a, effect);
    forall i | i in w'.rows ensures RowFits(w', i) && IsLive(w', i) {
      if i in w.rows {
        assert RowFits(w, i);
        StillLive(w, w', i);
      }
    }
  }

  lemma CommitKeeps(w: World, e: Event, a: Aggregate, effect: Effect)
    requires Inv(w)
    ensures Inv(Commit(w, e, a, effect))
  {
    var w' := Commit(w, e, a, effect);
    CommitGrows(w, e, a, effect);
    CommitKeepsLedger(w, e, a, effect);
    CommitKeepsRows(w, e, a, effect);
    RelaysKept(w, w');
    WorkersKept(w, w');
    RedriversKept(w, w');
  }

  // ---- the relay ----

  lemma StrayKeepsProcesses(w: World, m: MessageId)
    requires Inv(w) && m !in w.content
    ensures CopiesStay(w, Stray(w, m))
    ensures RelaysFit(Stray(w, m)) && WorkersFit(Stray(w, m)) && RedriversFit(Stray(w, m))
  {
    var w' := Stray(w, m);
    StrayGrows(w, m);
    RelaysKept(w, w');
    WorkersKept(w, w');
    RedriversKept(w, w');
  }

  lemma StrayKeeps(w: World, m: MessageId)
    requires Inv(w)
    ensures Inv(Stray(w, m))
  {
    if m !in w.content {
      StrayKeepsProcesses(w, m);
      StrayGrows(w, m);
      RowsKept(w, Stray(w, m));
      LedgerKept(w, Stray(w, m));
    }
  }

  lemma ClaimKeepsRelays(w: World, r: Process, e: Event, lock: LockId, expired: bool)
    requires Inv(w)
    ensures RelaysFit(RelayClaim(w, r, e, lock, expired))
  {
    var w' := RelayClaim(w, r, e, lock, expired);
    forall q | q in w'.relays ensures RelayFits(w', w'.relays[q]) {
      if q in w.relays { assert RelayFits(w, w.relays[q]); }
    }
  }

  lemma RelayClaimKeeps(w: World, r: Process, e: Event, lock: LockId, expired: bool)
    requires Inv(w)
    ensures Inv(RelayClaim(w, r, e, lock, expired))
  {
    var w' := RelayClaim(w, r, e, lock, expired);
    ClaimGrows(w, r, e, lock, expired);
    forall i | i in w'.rows ensures RowFits(w', i) && IsLive(w', i) {
      assert RowFits(w, i);
      StillLive(w, w', i);
    }
    LedgerKept(w, w');
    ClaimKeepsRelays(w, r, e, lock, expired);
    WorkersKept(w, w');
    RedriversKept(w, w');
  }

  lemma PublishKeepsRelays(w: World, r: Process, m: MessageId, outcome: Outcome)
    requires Inv(w)
    ensures RelaysFit(RelayPublish(w, r, m, outcome))
  {
    var w' := RelayPublish(w, r, m, outcome);
    forall q | q in w'.relays ensures RelayFits(w', w'.relays[q]) { assert RelayFits(w, w.relays[q]); }
  }

  lemma RelayPublishKeeps(w: World, r: Process, m: MessageId, outcome: Outcome)
    requires Inv(w)
    ensures Inv(RelayPublish(w, r, m, outcome))
  {
    var w' := RelayPublish(w, r, m, outcome);
    PublishGrows(w, r, m, outcome);
    if w' != w { assert RelayFits(w, w.relays[r]); }
    RowsKept(w, w');
    LedgerKept(w, w');
    PublishKeepsRelays(w, r, m, outcome);
    WorkersKept(w, w');
    RedriversKept(w, w');
  }

  lemma RelayCrashKeeps(w: World, r: Process)
    requires Inv(w)
    ensures Inv(RelayCrash(w, r))
  {
    var w' := RelayCrash(w, r);
    FinishGrows(w, r);
    RowsKept(w, w');
    LedgerKept(w, w');
    RelaysKept(w, w');
    WorkersKept(w, w');
    RedriversKept(w, w');
  }

  lemma RelayFinishKeeps(w: World, r: Process)
    requires Inv(w)
    ensures Inv(RelayFinish(w, r))
  {
    if r in w.relays && !w.relays[r].Claimed? {
      var w' := RelayFinish(w, r);
      var pc := w.relays[r];
      assert RelayFits(w, pc);
      FinishGrows(w, r);
      forall i | i in w'.rows ensures RowFits(w', i) && IsLive(w', i) {
        assert RowFits(w, i);
        if w'.rows[i].dispatched && !w.rows[i].dispatched { assert IsCopy(w', pc.m, i); }
        StillLive(w, w', i);
      }
      LedgerKept(w, w');
      RelaysKept(w, w');
      WorkersKept(w, w');
      RedriversKept(w, w');
    }
  }

  // ---- the worker ----

  lemma DeliverKeeps(w: World, x: Process, m: MessageId)
    requires Inv(w)
    ensures Inv(Deliver(w, x, m))
  {
    var w' := Deliver(w, x, m);
    MovesGrow(w, w');
    if w' != w {
      RowsKept(w, w');
      LedgerKept(w, w');
      RelaysKept(w, w');
      OtherWorkersKept(w, w', x);
      RedriversKept(w, w');
    }
  }

  lemma GoesKeeps(w: World, x: Process, pc: WorkerPc)
    requires Inv(w) && WorkerFits(w, x, pc)
    ensures Inv(Goes(w, x, pc))
  {
    var w' := Goes(w, x, pc);
    RowsKept(w, w');
    LedgerKept(w, w');
    RelaysKept(w, w');
    OtherWorkersKept(w, w', x);
    RedriversKept(w, w');
  }

  lemma ReturnKeeps(w: World, x: Process, m: MessageId, toDead: bool)
    requires Inv(w) && x in w.workers && w.workers[x].m == m
    ensures Inv(Return(w, x, m, toDead))
  {
    var w' := Return(w, x, m, toDead);
    assert WorkerFits(w, x, w.workers[x]);
    MovesGrow(w, w');
    RowsKept(w, w');
    LedgerKept(w, w');
    RelaysKept(w, w');
    OtherWorkersKept(w, w', x);
    RedriversKept(w, w');
  }

  // What the worker read, and what it found in the graph, fits.
  lemma LookFits(w: World, x: Process, pc: WorkerPc, copy: CopyId)
    requires Inv(w) && x in w.workers && w.workers[x] == pc
    ensures pc.Got? ==> WorkerFits(w, x, Ready(w, pc.m))
    ensures pc.Projecting? ==> WorkerFits(w, x, Project(w.graph, pc, copy))
  {
    assert WorkerFits(w, x, pc);
    var a := SubjectOf(w, pc.m);
    if a.Some? { assert RowFits(w, w.content[pc.m].value); }
    if pc.Projecting? && pc.seen.Some? { ProjectFits(w, x, pc, copy); }
  }

  lemma ProjectFits(w: World, x: Process, pc: WorkerPc, copy: CopyId)
    requires Inv(w) && WorkerFits(w, x, pc) && pc.Projecting? && pc.seen.Some?
    ensures WorkerFits(w, x, Project(w.graph, pc, copy))
  {
    assert SubjectFits(w, SubjectOf(w, pc.m).value);
    match pc.seen.value
    case Put(n, text) =>
      if Present(w.graph, n) {
        var c :| c in w.graph.copies && w.graph.copies[c].node == n;
        assert CopyFits(w, c);
      }
    case Erase(n) =>
      if copy in w.graph.copies { assert CopyFits(w, copy); }
  }

  lemma WriteKeepsGraph(w: World, x: Process, pc: WorkerPc, copy: CopyId)
    requires Inv(w) && x in w.workers && w.workers[x] == pc && pc.Writing?
    ensures GraphFits(Write(w, x, pc, copy)) && SubjectsFit(Write(w, x, pc, copy))
  {
    var w' := Write(w, x, pc, copy);
    assert WorkerFits(w, x, pc);
    ProceedGrows(w, x, pc, copy);
    SubjectsKept(w, w');
    var a := SubjectOf(w, pc.m).value;
    assert SubjectFits(w, a);
    forall c | c in w'.graph.copies ensures CopyFits(w', c) { if c in w.graph.copies { assert CopyFits(w, c); } }
    forall n | n in w'.graph.put ensures n in w'.owners && (Present(w'.graph, n) || n in w'.graph.erased) {
      PresentStays(w.graph, w'.graph, n);
      if n !in w.graph.put { assert w'.graph.copies[copy].node == n; }
    }
    forall n | n in w'.graph.erased ensures Erasing(w', n) { ErasingStays(w, w', n); }
  }

  lemma PresentStays(g: Graph, g': Graph, n: Node)
    requires GraphStays(g, g')
    ensures Present(g, n) ==> Present(g', n) || n in g'.erased
  {
    if Present(g, n) {
      var c :| c in g.copies && g.copies[c].node == n;
      if c in g'.copies { assert g'.copies[c].node == n; }
    }
  }

  lemma DeleteKeepsGraph(w: World, x: Process, pc: WorkerPc)
    requires Inv(w) && x in w.workers && w.workers[x] == pc && pc.Deleting?
    ensures GraphFits(Delete(w, x, pc)) && SubjectsFit(Delete(w, x, pc))
  {
    var w' := Delete(w, x, pc);
    assert WorkerFits(w, x, pc);
    ProceedGrows(w, x, pc, 0);
    SubjectsKept(w, w');
    var a := SubjectOf(w, pc.m).value;
    assert SubjectFits(w, a);
    forall c | c in w'.graph.copies ensures CopyFits(w', c) { assert CopyFits(w, c); }
    forall n | n in w'.graph.put ensures n in w'.owners && (Present(w'.graph, n) || n in w'.graph.erased) {
      PresentStays(w.graph, w'.graph, n);
    }
    forall n | n in w'.graph.erased ensures n.Item? && n in w'.graph.put && Erasing(w', n) {
      if n in w.graph.erased { ErasingStays(w, w', n); } else { assert w'.subjects[a].effect == Erase(n); }
    }
  }

  lemma CarryKeeps(w: World, x: Process, pc: WorkerPc, copy: CopyId)
    requires Inv(w) && x in w.workers && w.workers[x] == pc && (pc.Writing? || pc.Deleting?)
    ensures Inv(Proceed(w, x, pc, copy))
  {
    var w' := Proceed(w, x, pc, copy);
    assert WorkerFits(w, x, pc);
    ProceedGrows(w, x, pc, copy);
    if w' != w {
      if pc.Writing? { WriteKeepsGraph(w, x, pc, copy); } else { DeleteKeepsGraph(w, x, pc); }
      CarryKeepsWorkers(w, x, pc, copy);
      RowsKept(w, w');
      RelaysKept(w, w');
      RedriversKept(w, w');
    }
  }

  lemma CarryKeepsWorkers(w: World, x: Process, pc: WorkerPc, copy: CopyId)
    requires Inv(w) && x in w.workers && w.workers[x] == pc && (pc.Writing? || pc.Deleting?)
    requires Proceed(w, x, pc, copy) != w
    ensures WorkersFit(Proceed(w, x, pc, copy))
  {
    var w' := Proceed(w, x, pc, copy);
    assert WorkerFits(w, x, pc);
    ProceedGrows(w, x, pc, copy);
    CarriedNow(w, x, pc, copy);
    OtherWorkersKept(w, w', x);
  }

  lemma CarriedNow(w: World, x: Process, pc: WorkerPc, copy: CopyId)
    requires Inv(w) && x in w.workers && w.workers[x] == pc && (pc.Writing? || pc.Deleting?)
    requires Proceed(w, x, pc, copy) != w
    ensures Carried(Proceed(w, x, pc, copy), pc.m)
  {
    assert WorkerFits(w, x, pc);
  }

  // ---- marking ----

  lemma CloseKeepsSubjects(w: World, a: Aggregate)
    requires Inv(w) && a in w.subjects && Projected(w.graph, w.subjects[a].effect)
    ensures SubjectsFit(MarkDone(w, a)) && GraphFits(MarkDone(w, a))
  {
    var w' := MarkDone(w, a);
    MarkDoneGrows(w, a);
    GraphKept(w, w');
    assert SubjectFits(w, a);
    var n := w.subjects[a].effect.node;
    assert OwnerFits(w, n);
    forall b | b in w'.subjects ensures SubjectFits(w', b) { assert SubjectFits(w, b); }
    forall k | k in w'.owners ensures OwnerFits(w', k) { assert OwnerFits(w, k); }
  }

  lemma CloseKeepsRows(w: World, a: Aggregate)
    requires Inv(w) && a in w.subjects
    ensures RowsFit(MarkDone(w, a))
  {
    var w' := MarkDone(w, a);
    assert SubjectFits(w, a);
    forall i | i in w'.rows ensures RowFits(w', i) && IsLive(w', i) {
      assert RowFits(w, i);
      StillLive(w, w', i);
    }
  }

  lemma CloseKeepsProcesses(w: World, a: Aggregate)
    requires Inv(w) && a in w.subjects
    ensures RelaysFit(MarkDone(w, a)) && WorkersFit(MarkDone(w, a)) && RedriversFit(MarkDone(w, a))
  {
    var w' := MarkDone(w, a);
    MarkDoneGrows(w, a);
    RelaysKept(w, w');
    WorkersKept(w, w');
    RedriversKept(w, w');
  }

  lemma MarkDoneKeeps(w: World, a: Aggregate)
    requires Inv(w) && a in w.subjects && Projected(w.graph, w.subjects[a].effect)
    ensures Inv(MarkDone(w, a))
  {
    var w' := MarkDone(w, a);
    MarkDoneGrows(w, a);
    CloseKeepsSubjects(w, a);
    CloseKeepsRows(w, a);
    CloseKeepsProcesses(w, a);
  }

  lemma MarkKeeps(w: World, x: Process, m: MessageId)
    requires Inv(w) && x in w.workers && w.workers[x] == Marking(m)
    ensures Inv(Mark(w, x, m))
  {
    assert WorkerFits(w, x, w.workers[x]);
    var a := SubjectOf(w, m).value;
    MarkDoneKeeps(w, a);
    MarkDoneGrows(w, a);
    AckFits(w, x, m, a);
    GoesKeeps(MarkDone(w, a), x, Acking(m));
  }

  lemma AckFits(w: World, x: Process, m: MessageId, a: Aggregate)
    requires Inv(w) && x in w.workers && w.workers[x] == Marking(m) && SubjectOf(w, m) == Some(a) && a in w.subjects
    ensures WorkerFits(MarkDone(w, a), x, Acking(m))
  {
    assert WorkerFits(w, x, w.workers[x]);
    assert RowFits(w, w.content[m].value);
  }

  lemma AckKeeps(w: World, x: Process, m: MessageId)
    requires Inv(w) && x in w.workers && w.workers[x] == Acking(m)
    ensures Inv(Acknowledge(w, x, m))
  {
    var w' := Acknowledge(w, x, m);
    assert WorkerFits(w, x, w.workers[x]);
    MovesGrow(w, w');
    AckKeepsRows(w, x, m);
    LedgerKept(w, w');
    OtherWorkersKept(w, w', x);
    RedriversKept(w, w');
  }

  lemma AckKeepsRows(w: World, x: Process, m: MessageId)
    requires Inv(w) && x in w.workers && w.workers[x] == Acking(m)
    ensures RowsFit(Acknowledge(w, x, m)) && RelaysFit(Acknowledge(w, x, m))
  {
    var w' := Acknowledge(w, x, m);
    assert WorkerFits(w, x, w.workers[x]);
    var e := w.content[m].value;
    assert RowFits(w, e);
    forall i | i in w'.rows ensures RowFits(w', i) && IsLive(w', i) {
      assert RowFits(w, i) && IsLive(w, i);
      if i != e && HasCopy(w, i) {
        var k :| IsCopy(w, k, i);
        assert IsCopy(w', k, i);
      }
    }
    forall q | q in w'.relays ensures RelayFits(w', w'.relays[q]) { assert RelayFits(w, w.relays[q]); }
  }

  lemma ProceedKeeps(w: World, x: Process, pc: WorkerPc, copy: CopyId)
    requires Inv(w) && x in w.workers && w.workers[x] == pc
    requires pc.Got? || pc.Projecting? || pc.Writing? || pc.Deleting? || pc.Marking?
    ensures Inv(Proceed(w, x, pc, copy))
  {
    LookFits(w, x, pc, copy);
    match pc
    case Got(m) => GoesKeeps(w, x, Ready(w, m));
    case Projecting(_, _) => GoesKeeps(w, x, Project(w.graph, pc, copy));
    case Writing(_, _, _) => CarryKeeps(w, x, pc, copy);
    case Deleting(_, _, _) => CarryKeeps(w, x, pc, copy);
    case Marking(m) => MarkKeeps(w, x, m);
  }

  lemma WorkKeeps(w: World, x: Process, ok: bool, toDead: bool, copy: CopyId)
    requires Inv(w)
    ensures Inv(Work(w, x, ok, toDead, copy))
  {
    if x in w.workers {
      var pc := w.workers[x];
      assert WorkerFits(w, x, pc);
      if pc.Acking? {
        AckKeeps(w, x, pc.m);
      } else if pc.Rejecting? {
        ReturnKeeps(w, x, pc.m, toDead);
      } else if ok {
        ProceedKeeps(w, x, pc, copy);
      } else {
        GoesKeeps(w, x, Rejecting(pc.m));
      }
    }
  }

  // ---- the redriver ----

  lemma RedriveGetKeeps(w: World, d: Process, target: Event, m: MessageId)
    requires Inv(w)
    ensures Inv(RedriveGet(w, d, target, m))
  {
    var w' := RedriveGet(w, d, target, m);
    MovesGrow(w, w');
    if w' != w {
      RowsKept(w, w');
      LedgerKept(w, w');
      RelaysKept(w, w');
      WorkersKept(w, w');
      OtherRedriversKept(w, w', d);
    }
  }

  // A redriver lets go of messages.
  lemma RedriverLetsGo(w: World, d: Process, w': World)
    requires Inv(w) && w' == w.(place := w'.place, redrivers := w'.redrivers) && w'.place.Keys == w.place.Keys
    requires forall m | m in w.place && w'.place[m] != w.place[m] ::
               w'.place[m] == InDeadLetters && (w.place[m] == AtRedriver(d) || w.place[m] == Leaving(d))
    requires w'.redrivers - {d} == w.redrivers - {d}
    requires d in w'.redrivers ==> w'.redrivers[d].Finishing?
    ensures Inv(w')
  {
    RowsKept(w, w');
    LedgerKept(w, w');
    RelaysKept(w, w');
    WorkersKept(w, w');
    OtherRedriversKept(w, w', d);
  }

  lemma ReopenKeepsRows(w: World, d: Process, e: Event, m: MessageId)
    requires Inv(w) && d in w.redrivers && w.redrivers[d] == Found(e, m) && e in w.rows
    ensures var w' := Reopen(w, e).(place := w.place[m := Leaving(d)], redrivers := w.redrivers[d := AckDue(m)]);
            RowsFit(w') && RelaysFit(w')
  {
    var w' := Reopen(w, e).(place := w.place[m := Leaving(d)], redrivers := w.redrivers[d := AckDue(m)]);
    assert RedriverFits(w, d, w.redrivers[d]);
    forall i | i in w'.rows ensures RowFits(w', i) && IsLive(w', i) {
      assert RowFits(w, i) && IsLive(w, i);
      if i != e && HasCopy(w, i) {
        var k :| IsCopy(w, k, i);
        assert IsCopy(w', k, i);
      }
    }
    forall q | q in w'.relays ensures RelayFits(w', w'.relays[q]) { assert RelayFits(w, w.relays[q]); }
  }

  lemma ReopenKeeps(w: World, d: Process, e: Event, m: MessageId)
    requires Inv(w) && d in w.redrivers && w.redrivers[d] == Found(e, m) && e in w.rows
    ensures Inv(Reopen(w, e).(place := w.place[m := Leaving(d)], redrivers := w.redrivers[d := AckDue(m)]))
  {
    var w' := Reopen(w, e).(place := w.place[m := Leaving(d)], redrivers := w.redrivers[d := AckDue(m)]);
    assert RedriverFits(w, d, w.redrivers[d]);
    ReopenKeepsRows(w, d, e, m);
    LedgerKept(w, w');
    WorkersKept(w, w');
    OtherRedriversKept(w, w', d);
  }

  lemma RedriveAckKeeps(w: World, d: Process, m: MessageId)
    requires Inv(w) && d in w.redrivers && w.redrivers[d] == AckDue(m)
    ensures Inv(w.(place := w.place - {m}, redrivers := w.redrivers[d := Finishing]))
  {
    var w' := w.(place := w.place - {m}, redrivers := w.redrivers[d := Finishing]);
    assert RedriverFits(w, d, w.redrivers[d]);
    RowsKept(w, w');
    LedgerKept(w, w');
    RelaysKept(w, w');
    WorkersKept(w, w');
    OtherRedriversKept(w, w', d);
  }

  lemma GiveBackKeeps(w: World, d: Process, m: MessageId)
    requires Inv(w) && m in w.place && (w.place[m] == AtRedriver(d) || w.place[m] == Leaving(d))
    ensures Inv(GiveBack(w, d, m))
  {
    RedriverLetsGo(w, d, GiveBack(w, d, m));
  }

  lemma BackKeeps(w: World, d: Process)
    requires Inv(w)
    ensures Inv(RedriverCrash(w, d))
  {
    RedriverLetsGo(w, d, RedriverCrash(w, d));
  }

  lemma RedriveKeeps(w: World, d: Process, ok: bool)
    requires Inv(w)
    ensures Inv(Redrive(w, d, ok))
  {
    if d in w.redrivers {
      assert RedriverFits(w, d, w.redrivers[d]);
      match w.redrivers[d]
      case Scanning(target) => RedriverLetsGo(w, d, w.(redrivers := w.redrivers[d := Finishing]));
      case Found(target, m) =>
        if ok && target in w.rows && !w.rows[target].processed {
          ReopenKeeps(w, d, target, m);
        } else {
          GiveBackKeeps(w, d, m);
        }
      case AckDue(m) => if ok { RedriveAckKeeps(w, d, m); } else { GiveBackKeeps(w, d, m); }
      case Finishing => BackKeeps(w, d);
    }
  }

  lemma ApplyKeeps(w: World, st: Step)
    requires Inv(w)
    ensures Inv(Apply(w, st))
  {
    match st
    case CommitStep(e, a, effect) => CommitKeeps(w, e, a, effect);
    case StrayStep(m) => StrayKeeps(w, m);
    case ClaimStep(r, e, lock, expired) => RelayClaimKeeps(w, r, e, lock, expired);
    case PublishStep(r, m, outcome) => RelayPublishKeeps(w, r, m, outcome);
    case RelayStep(r) => RelayFinishKeeps(w, r);
    case RelayCrashStep(r) => RelayCrashKeeps(w, r);
    case DeliverStep(x, m) => DeliverKeeps(w, x, m);
    case WorkStep(x, ok, toDead, copy) => WorkKeeps(w, x, ok, toDead, copy);
    case WorkerCrashStep(x, toDead) => if x in w.workers { ReturnKeeps(w, x, w.workers[x].m, toDead); }
    case GetStep(d, target, m) => RedriveGetKeeps(w, d, target, m);
    case RedriveStep(d, ok) => RedriveKeeps(w, d, ok);
    case RedriverCrashStep(d) => BackKeeps(w, d);
  }

  lemma {:induction false} RunKeeps(w: World, steps: seq<Step>)
    requires Inv(w)
    ensures Inv(Run(w, steps)) && Grows(w, Run(w, steps))
    decreases |steps|
  {
    if steps != [] {
      ApplyKeeps(w, steps[0]);
      StepGrows(w, steps[0]);
      RunKeeps(Apply(w, steps[0]), steps[1..]);
      forall c | c in w.graph.copies ensures c in w.graph.used { assert CopyFits(w, c); }
      GrowsFurther(w, Apply(w, steps[0]), Run(w, steps));
    }
  }

  lemma GraphsGrowFurther(g: Graph, g1: Graph, g2: Graph)
    requires GraphStays(g, g1) && GraphStays(g1, g2) && forall c | c in g.copies :: c in g.used
    ensures GraphStays(g, g2)
  {
  }

  lemma GrowsFurther(w: World, w1: World, w2: World)
    requires Grows(w, w1) && Grows(w1, w2) && forall c | c in w.graph.copies :: c in w.graph.used
    ensures Grows(w, w2)
  {
    GraphsGrowFurther(w.graph, w1.graph, w2.graph);
    forall e | e in w.rows ensures RowStays(w, w2, e) { assert RowStays(w, w1, e) && RowStays(w1, w2, e); }
    forall a | a in w.subjects ensures SubjectStays(w, w2, a) { assert SubjectStays(w, w1, a) && SubjectStays(w1, w2, a); }
  }

  // ---------------------------------------------------------------------------
  // The results
  // ---------------------------------------------------------------------------

  lemma StartFits()
    ensures Inv(START)
  {
  }

  // At least once: whatever crashes, an event that was committed and is not yet processed still
  // has an undispatched row or a message that the queue, the dead letters, a worker or a
  // redriver holds and has not settled.
  lemma NothingIsLost(before: seq<Step>, after: seq<Step>, e: Event)
    requires e in Run(START, before).rows
    ensures var w := Run(Run(START, before), after);
            e in w.rows && (w.rows[e].processed || !w.rows[e].dispatched || HasCopy(w, e))
  {
    StartFits();
    RunKeeps(START, before);
    var w0 := Run(START, before);
    RunKeeps(w0, after);
    var w := Run(w0, after);
    assert RowStays(w0, w, e);
    assert IsLive(w, e);
  }

  lemma OnlyAckingRemoves(w: World, x: Process, ok: bool, toDead: bool, copy: CopyId, m: MessageId)
    requires m in w.place && m !in Work(w, x, ok, toDead, copy).place
    ensures x in w.workers && w.workers[x] == Acking(m)
  {
    if x in w.workers && !w.workers[x].Acking? {
      NothingRemoved(w, x, ok, toDead, copy);
    }
  }

  lemma NothingRemoved(w: World, x: Process, ok: bool, toDead: bool, copy: CopyId)
    requires x in w.workers && !w.workers[x].Acking?
    ensures Work(w, x, ok, toDead, copy).place.Keys == w.place.Keys
  {
    var pc := w.workers[x];
    if pc.Rejecting? {
      assert Work(w, x, ok, toDead, copy) == Return(w, x, pc.m, toDead);
    } else {
      assert Work(w, x, ok, toDead, copy) == if ok then Proceed(w, x, pc, copy) else Goes(w, x, Rejecting(pc.m));
    }
  }

  // A command whose event is processed was carried out: what it puts was written to the graph,
  // what it erases was deleted from it.
  predicate CarriedOut(w: World, e: Event) {
    && e in w.rows && w.rows[e].processed && w.rows[e].subject in w.subjects
    && var s := w.subjects[w.rows[e].subject];
       s.phase == Done && Projected(w.graph, s.effect)
  }

  lemma AckingIsDone(w: World, x: Process)
    requires Inv(w) && x in w.workers && w.workers[x].Acking?
    ensures var m := w.workers[x].m; m in w.content && w.content[m].Some? && CarriedOut(w, w.content[m].value)
  {
    assert WorkerFits(w, x, w.workers[x]);
    var e := w.content[w.workers[x].m].value;
    assert RowFits(w, e);
    assert SubjectFits(w, w.rows[e].subject);
  }

  // A worker that makes a message disappear has seen its candidate published or its command
  // applied. In particular no message that does not decode is ever acknowledged.
  lemma AcknowledgedOnlyWhenDone(steps: seq<Step>, x: Process, ok: bool, toDead: bool, copy: CopyId,
          m: MessageId)
    requires var w := Run(START, steps); m in w.place && m !in Work(w, x, ok, toDead, copy).place
    ensures var w := Run(START, steps);
            m in w.content && w.content[m].Some? && CarriedOut(w, w.content[m].value)
  {
    StartFits();
    RunKeeps(START, steps);
    OnlyAckingRemoves(Run(START, steps), x, ok, toDead, copy, m);
    AckingIsDone(Run(START, steps), x);
  }
}
