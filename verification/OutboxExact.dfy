// What one turn of the relay, one delivery and one redriving leave in the database, the broker
// and the graph, told by the rows, the messages and the calls that went through.
module OutboxExact {
  import opened Common
  import opened Outbox

  // What the database and the broker answer to one turn of the relay's loop.
  datatype Offer = Offer(e: Event, lock: LockId, expired: bool, m: MessageId, outcome: Outcome)

  // A commit is taken exactly if event and command are new, a put is of a node nobody put - the
  // knowledge of a candidate only by that candidate - and an erasure of an item that was put and
  // whose erasure is not done. It adds one unsent row and one waiting command.
  lemma CommitExactly(w: World, e: Event, a: Aggregate, effect: Effect)
    ensures var w' := Commit(w, e, a, effect);
            var taken := && e !in w.rows && a !in w.subjects
                         && match effect
                            case Put(n, _) => n !in w.owners && (n.Item? || n == Knowledge(a))
                            case Erase(n) => n.Item? && n in w.graph.put
                                             && forall i | i in w.subjects :: w.subjects[i].effect != effect || w.subjects[i].phase == Waiting;
            && (!taken ==> w' == w)
            && (taken ==>
                  && w'.rows == w.rows[e := Row(a, false, false, None)]
                  && w'.subjects == w.subjects[a := Subject(Waiting, effect, false)]
                  && w'.owners == (if effect.Put? then w.owners[effect.node := a] else w.owners)
                  && w' == w.(rows := w'.rows, subjects := w'.subjects, owners := w'.owners))
  {
    if effect.Erase? && ErasureDone(w.subjects, effect.node) {
      var i :| i in w.subjects && w.subjects[i].effect == Erase(effect.node) && w.subjects[i].phase == Done;
    }
  }

  // A process that dies takes only its own place with it: a worker's message goes back, a relay's
  // lock stays, and what a redriver held is a dead letter again.
  lemma CrashExactly(w: World, p: Process, toDead: bool)
    ensures RelayCrash(w, p) == w.(relays := w.relays - {p})
    ensures p in w.workers && w.workers[p].m in w.place ==>
              WorkerCrash(w, p, toDead) == w.(place := w.place[w.workers[p].m := if toDead then InDeadLetters else InQueue],
                                              workers := w.workers - {p})
    ensures var w' := RedriverCrash(w, p);
            && w' == w.(place := w'.place, redrivers := w.redrivers - {p}) && w'.place.Keys == w.place.Keys
            && forall m | m in w.place ::
                 w'.place[m] == if w.place[m] == AtRedriver(p) || w.place[m] == Leaving(p) then InDeadLetters else w.place[m]
  {
  }

  // What a relay has no part in.
  predicate Beside(w: World, w': World) {
    && w'.subjects == w.subjects && w'.owners == w.owners && w'.graph == w.graph
    && w'.workers == w.workers && w'.redrivers == w.redrivers
  }

  predicate CanClaim(w: World, offer: Offer) {
    && offer.e in w.rows && !w.rows[offer.e].dispatched && !w.rows[offer.e].processed
    && (w.rows[offer.e].lock.None? || offer.expired)
    && offer.lock !in w.usedLocks
  }

  // The claims drawn for some offers, and their events.
  function Locks(offers: seq<Offer>): set<LockId> {
    set o | o in offers :: o.lock
  }

  function Events(offers: seq<Offer>): set<Event> {
    set o | o in offers :: o.e
  }

  lemma OneMore(offers: seq<Offer>, offer: Offer)
    ensures Locks(offers + [offer]) == Locks(offers) + {offer.lock}
    ensures Events(offers + [offer]) == Events(offers) + {offer.e}
  {
    forall o ensures o in offers + [offer] <==> o in offers || o == offer {}
    assert offer in offers + [offer];
  }

  // The offer was taken up: its row is marked and unlocked, its message stored.
  predicate IsRelayed(w: World, w': World, offer: Offer) {
    && offer.e in w.rows && !w.rows[offer.e].dispatched && !w.rows[offer.e].processed
    && offer.e in w'.rows && w'.rows[offer.e] == w.rows[offer.e].(dispatched := true, lock := None)
    && offer.outcome == Confirmed && offer.m !in w.content
    && offer.m in w'.content && w'.content[offer.m] == Some(offer.e)
    && offer.m in w'.place && w'.place[offer.m] == InQueue
  }

  // Rows of other events keep all but their lock, and messages that were there stay as they are.
  ghost predicate OthersKept(w: World, w': World, events: set<Event>) {
    && w'.rows.Keys == w.rows.Keys
    && (forall e | e in w.rows && e !in events :: w'.rows[e] == w.rows[e].(lock := w'.rows[e].lock))
    && (forall m | m in w.content :: m in w'.content && w'.content[m] == w.content[m])
  }

  // The offers, for different events, were all taken up, and no other row was marked.
  ghost predicate Relayed(w: World, w': World, offers: seq<Offer>) {
    && (forall i {:trigger IsRelayed(w, w', offers[i])} | 0 <= i < |offers| :: IsRelayed(w, w', offers[i]))
    && (forall i, j {:trigger offers[i].e, offers[j].e} | 0 <= i < j < |offers| :: offers[i].e != offers[j].e)
    && OthersKept(w, w', Events(offers))
  }

  // The first k offers were dispatched, and nothing else was claimed.
  ghost predicate Swept(w: World, w': World, offers: seq<Offer>, k: nat)
    requires k <= |offers|
  {
    && Beside(w, w') && Relayed(w, w', offers[..k])
    && w'.usedLocks == w.usedLocks + Locks(offers[..k])
  }

  // The first k offers were dispatched; the next one was claimed and is not.
  ghost predicate BrokenOff(w: World, w': World, offers: seq<Offer>, k: nat)
    requires k < |offers|
  {
    && Beside(w, w') && Relayed(w, w', offers[..k])
    && offers[k].lock !in w.usedLocks + Locks(offers[..k])
    && w'.usedLocks == w.usedLocks + Locks(offers[..k]) + {offers[k].lock}
    && offers[k].e in w'.rows && !w'.rows[offers[k].e].dispatched && !w'.rows[offers[k].e].processed
    && (offers[k].outcome == Confirmed ==> offers[k].m in w'.content)
  }

  // What a turn of the relay does with the offer it claimed.
  predicate Turned(w: World, w': World, offer: Offer, marked: bool) {
    && offer.e in w.rows
    && (marked <==> offer.m !in w.content && offer.outcome == Confirmed)
    && w'.rows == w.rows[offer.e := w.rows[offer.e].(dispatched := marked, lock := if offer.m in w.content then Some(offer.lock) else None)]
    && (if offer.m !in w.content && offer.outcome != Refused then
          w'.content == w.content[offer.m := Some(offer.e)] && w'.place == w.place[offer.m := InQueue]
        else w'.content == w.content && w'.place == w.place)
  }

  predicate Owns(w: World, pc: RelayPc) {
    pc.e in w.rows && w.rows[pc.e].lock == Some(pc.lock) && !w.rows[pc.e].dispatched
  }

  function Unlocked(rows: map<Event, Row>, e: Event, dispatched: bool): map<Event, Row>
    requires e in rows
  {
    rows[e := rows[e].(dispatched := dispatched, lock := None)]
  }

  lemma FinishExactly(w: World, r: Process)
    requires r in w.relays && !w.relays[r].Claimed?
    ensures var pc, w' := w.relays[r], Apply(w, RelayStep(r));
            && w' == w.(rows := w'.rows, relays := w.relays - {r})
            && w'.rows == if Owns(w, pc) then Unlocked(w.rows, pc.e, pc.Published?) else w.rows
  {
  }

  lemma StaysRelayed(w: World, w1: World, w2: World, done: Offer, offer: Offer, marked: bool)
    requires IsRelayed(w, w1, done) && CanClaim(w1, offer) && Turned(w1, w2, offer, marked)
    ensures IsRelayed(w, w2, done) && done.e != offer.e
  {
  }

  lemma KeptFurther(w: World, w1: World, w2: World, events: set<Event>, offer: Offer, marked: bool)
    requires OthersKept(w, w1, events) && offer.e !in events && Turned(w1, w2, offer, marked)
    requires offer.e in w1.rows && !w1.rows[offer.e].dispatched
    ensures OthersKept(w, w2, if marked then events + {offer.e} else events)
  {
  }

  lemma RelayedFurther(w: World, w1: World, w2: World, offers: seq<Offer>, offer: Offer, marked: bool)
    requires Relayed(w, w1, offers) && CanClaim(w1, offer) && Turned(w1, w2, offer, marked)
    ensures Relayed(w, w2, if marked then offers + [offer] else offers)
  {
    var more := if marked then offers + [offer] else offers;
    forall i | 0 <= i < |offers| ensures IsRelayed(w, w2, offers[i]) && offers[i].e != offer.e {
      assert IsRelayed(w, w1, offers[i]);
      StaysRelayed(w, w1, w2, offers[i], offer, marked);
    }
    OneMore(offers, offer);
    KeptFurther(w, w1, w2, Events(offers), offer, marked);
    if marked { assert IsRelayed(w, w2, offer); }
  }

  lemma SweptNothing(w: World, offers: seq<Offer>)
    ensures Swept(w, w, offers, 0)
  {
    assert offers[..0] == [];
  }

  lemma TurnSweeps(w: World, w1: World, w2: World, offers: seq<Offer>, k: nat, marked: bool)
    requires k < |offers| && Swept(w, w1, offers, k) && CanClaim(w1, offers[k]) && Turned(w1, w2, offers[k], marked)
    requires Beside(w1, w2) && w2.usedLocks == w1.usedLocks + {offers[k].lock}
    ensures if marked then Swept(w, w2, offers, k + 1) else BrokenOff(w, w2, offers, k)
  {
    RelayedFurther(w, w1, w2, offers[..k], offers[k], marked);
    assert offers[..k] + [offers[k]] == offers[..k + 1];
    OneMore(offers[..k], offers[k]);
  }

  // The database and the other processes.
  predicate DatabaseSame(w: World, w': World) {
    && w'.rows == w.rows && w'.subjects == w.subjects && OthersSame(w, w')
  }

  predicate OthersSame(w: World, w': World) {
    && w'.owners == w.owners && w'.content == w.content && w'.relays == w.relays && w'.redrivers == w.redrivers
    && w'.usedLocks == w.usedLocks
  }

  // The message names an event whose command is in the database.
  predicate Knows(w: World, m: MessageId) {
    && m in w.content && w.content[m].Some? && w.content[m].value in w.rows
    && w.rows[w.content[m].value].subject in w.subjects
  }

  function CommandOf(w: World, m: MessageId): Aggregate
    requires Knows(w, m)
  {
    w.rows[w.content[m].value].subject
  }

  predicate Here(g: Graph, n: Node) {
    exists c | c in g.copies :: g.copies[c].node == n
  }

  // The command is done, all its events are processed and unlocked, and an erasure has taken the
  // content out of the command that put its item; nothing else of the database is touched.
  ghost predicate Closed(w: World, w': World, a: Aggregate)
    requires a in w.subjects
  {
    && w'.rows.Keys == w.rows.Keys && w'.subjects.Keys == w.subjects.Keys
    && (forall e | e in w.rows ::
          w'.rows[e] == if w.rows[e].subject == a then w.rows[e].(processed := true, lock := None) else w.rows[e])
    && (forall i | i in w.subjects ::
          w'.subjects[i] == w.subjects[i].(
            phase := if i == a then Done else w.subjects[i].phase,
            redacted := w.subjects[i].redacted
                        || (w.subjects[a].effect.Erase? && w.subjects[a].effect.node in w.owners && w.owners[w.subjects[a].effect.node] == i)))
  }

  // The command of the message is still to be carried out, and has its content.
  predicate IsOpen(w: World, m: MessageId) {
    Knows(w, m) && w.subjects[CommandOf(w, m)].phase == Waiting && !w.subjects[CommandOf(w, m)].redacted
  }

  predicate NeedsChange(g: Graph, effect: Effect) {
    match effect
    case Put(n, _) => !Here(g, n)
    case Erase(n) => Here(g, n)
  }

  predicate Carries(g: Graph, seen: Option<Effect>, lookOk: bool, changeOk: bool) {
    seen.Some? && lookOk && (NeedsChange(g, seen.value) ==> changeOk)
  }

  // The graph has the item of a put, once more only if there was no copy of it; of an erased item
  // one copy is deleted.
  ghost predicate GraphShows(g: Graph, g': Graph, effect: Effect, unused: CopyId) {
    match effect
    case Put(n, text) =>
      if Here(g, n) then g' == g
      else g' == Graph(g.copies[unused := Copy(n, text)], g.put + {n}, g.erased, g.used + {unused})
    case Erase(n) =>
      if !Here(g, n) then g' == g
      else exists c :: c in g.copies && g.copies[c].node == n && g' == Graph(g.copies - {c}, g.put, g.erased + {n}, g.used)
  }

  // What the steps of a delivery do. Only the worker's own place among the workers changes.
  ghost predicate TakenUp(w: World, w': World, x: Process, m: MessageId, ok: bool) {
    && DatabaseSame(w, w') && w'.graph == w.graph && w'.place == w.place[m := AtWorker(x)]
    && x in w'.workers && w'.workers == w.workers[x := w'.workers[x]]
    && w'.workers[x] == if !ok || !Knows(w, m) then Rejecting(m)
                        else if w.subjects[CommandOf(w, m)].phase == Done then Acking(m)
                        else Projecting(m, if w.subjects[CommandOf(w, m)].redacted then None else Some(w.subjects[CommandOf(w, m)].effect))
  }

  ghost predicate IsLookedUp(w: World, w': World, x: Process, m: MessageId, ok: bool)
    requires x in w.workers && w.workers[x].Projecting?
  {
    && DatabaseSame(w, w') && w'.graph == w.graph && w'.place == w.place
    && x in w'.workers && w'.workers == w.workers[x := w'.workers[x]]
    && if !ok || w.workers[x].seen.None? then w'.workers[x] == Rejecting(m)
       else match w.workers[x].seen.value
         case Put(n, text) => w'.workers[x] == if Here(w.graph, n) then Marking(m) else Writing(m, n, text)
         case Erase(n) =>
           if Here(w.graph, n) then
             && w'.workers[x].Deleting? && w'.workers[x].m == m && w'.workers[x].node == n
             && w'.workers[x].copy in w.graph.copies && w.graph.copies[w'.workers[x].copy].node == n
           else w'.workers[x] == Marking(m)
  }

  ghost predicate IsChanged(w: World, w': World, x: Process, m: MessageId, unused: CopyId, ok: bool)
    requires x in w.workers && (w.workers[x].Writing? || w.workers[x].Deleting?)
  {
    && DatabaseSame(w, w') && w'.place == w.place && w'.workers == w.workers[x := if ok then Marking(m) else Rejecting(m)]
    && var pc, g := w.workers[x], w.graph;
       w'.graph == if !ok then g
                   else if pc.Writing? then Graph(g.copies[unused := Copy(pc.node, pc.text)], g.put + {pc.node}, g.erased, g.used + {unused})
                   else Graph(g.copies - {pc.copy}, g.put, g.erased + {pc.node}, g.used)
  }

  ghost predicate IsMarked(w: World, w': World, x: Process, m: MessageId, ok: bool)
    requires Knows(w, m)
  {
    && OthersSame(w, w') && w'.graph == w.graph && w'.place == w.place
    && w'.workers == w.workers[x := if ok then Acking(m) else Rejecting(m)]
    && if ok then Closed(w, w', CommandOf(w, m)) else w'.rows == w.rows && w'.subjects == w.subjects
  }

  ghost predicate IsCarried(w: World, w': World, x: Process, m: MessageId, unused: CopyId, lookOk: bool, changeOk: bool, markOk: bool)
    requires x in w.workers && w.workers[x].Projecting? && Knows(w, m)
  {
    var seen := w.workers[x].seen;
    var through := Carries(w.graph, seen, lookOk, changeOk) && markOk;
    && OthersSame(w, w') && w'.place == w.place
    && w'.workers == w.workers[x := if through then Acking(m) else Rejecting(m)]
    && (if seen.Some? && lookOk && changeOk then GraphShows(w.graph, w'.graph, seen.value, unused) else w'.graph == w.graph)
    && if through then Closed(w, w', CommandOf(w, m)) else w'.rows == w.rows && w'.subjects == w.subjects
  }

  ghost predicate Settled(w: World, w': World, x: Process, m: MessageId, toDead: bool) {
    && DatabaseSame(w, w') && w'.graph == w.graph && w'.workers == w.workers - {x}
    && x in w.workers
    && w'.place == if w.workers[x] == Acking(m) then w.place - {m}
                   else w.place[m := if toDead then InDeadLetters else InQueue]
  }

  // What a delivery handled to its end leaves.
  ghost predicate Handled(w: World, w': World, m: MessageId, unused: CopyId, readOk: bool, lookOk: bool,
          changeOk: bool, markOk: bool, toDead: bool, acknowledged: bool) {
    && OthersSame(w, w') && w'.workers == w.workers
    && w'.place == (if acknowledged then w.place - {m} else w.place[m := if toDead then InDeadLetters else InQueue])
    && (acknowledged <==>
          && readOk && Knows(w, m)
          && var c := w.subjects[CommandOf(w, m)];
             c.phase == Waiting ==> !c.redacted && lookOk && (NeedsChange(w.graph, c.effect) ==> changeOk) && markOk)
    && (if readOk && IsOpen(w, m) && lookOk && changeOk then
          GraphShows(w.graph, w'.graph, w.subjects[CommandOf(w, m)].effect, unused)
        else w'.graph == w.graph)
    && (if acknowledged && IsOpen(w, m) then Closed(w, w', CommandOf(w, m))
        else w'.rows == w.rows && w'.subjects == w.subjects)
  }

  lemma {:induction false} MarkExactly(w: World, x: Process, m: MessageId)
    requires Knows(w, m) && w.subjects[CommandOf(w, m)].phase == Waiting
    ensures var w' := Mark(w, x, m);
            && Closed(w, w', CommandOf(w, m)) && OthersSame(w, w') && w'.workers == w.workers[x := Acking(m)]
  {
  }

  lemma TakeUpExactly(w: World, x: Process, m: MessageId, ok: bool, toDead: bool)
    requires x !in w.workers && m in w.place && w.place[m] == InQueue
    ensures TakenUp(w, Work(Deliver(w, x, m), x, ok, toDead, 0), x, m, ok)
  {
  }

  lemma ChangeExactly(w: World, x: Process, m: MessageId, unused: CopyId, ok: bool, toDead: bool)
    requires x in w.workers && (w.workers[x].Writing? || w.workers[x].Deleting?) && w.workers[x].m == m
    requires unused !in w.graph.used
    ensures IsChanged(w, Work(w, x, ok, toDead, unused), x, m, unused, ok)
  {
  }

  lemma KnowsStill(w: World, w': World, m: MessageId)
    requires DatabaseSame(w, w') && Knows(w, m)
    ensures Knows(w', m) && CommandOf(w', m) == CommandOf(w, m)
    ensures w'.subjects[CommandOf(w', m)] == w.subjects[CommandOf(w, m)]
  {
  }

  lemma CarriedBy(w: World, w1: World, w2: World, w3: World, x: Process, m: MessageId, unused: CopyId, lookOk: bool,
          changeOk: bool, markOk: bool)
    requires x in w.workers && w.workers[x].Projecting? && Knows(w, m) && IsLookedUp(w, w1, x, m, lookOk)
    requires if w1.workers[x].Writing? || w1.workers[x].Deleting? then IsChanged(w1, w2, x, m, unused, changeOk) else w2 == w1
    requires Knows(w2, m) && x in w2.workers
    requires if w2.workers[x].Marking? then IsMarked(w2, w3, x, m, markOk) else w3 == w2
    ensures IsCarried(w, w3, x, m, unused, lookOk, changeOk, markOk)
  {
    KnowsStill(w, w2, m);
  }

  lemma HandledAtOnce(w: World, w1: World, w3: World, x: Process, m: MessageId, unused: CopyId, readOk: bool,
          lookOk: bool, changeOk: bool, markOk: bool, toDead: bool)
    requires x !in w.workers && TakenUp(w, w1, x, m, readOk) && !w1.workers[x].Projecting?
    requires Settled(w1, w3, x, m, toDead)
    ensures Handled(w, w3, m, unused, readOk, lookOk, changeOk, markOk, toDead, w1.workers[x].Acking?)
  {
    assert w3.workers == w.workers;
  }

  lemma HandledByCarrying(w: World, w1: World, w2: World, w3: World, x: Process, m: MessageId, unused: CopyId,
          lookOk: bool, changeOk: bool, markOk: bool, toDead: bool)
    requires x !in w.workers && TakenUp(w, w1, x, m, true) && w1.workers[x].Projecting?
    requires Knows(w1, m) && IsCarried(w1, w2, x, m, unused, lookOk, changeOk, markOk)
    requires Settled(w2, w3, x, m, toDead)
    ensures Handled(w, w3, m, unused, true, lookOk, changeOk, markOk, toDead, w2.workers[x].Acking?)
  {
    KnowsStill(w, w1, m);
    assert w3.workers == w.workers;
    assert w1.workers[x].seen.Some? <==> IsOpen(w, m);
    assert Closed(w1, w2, CommandOf(w1, m)) <==> Closed(w, w3, CommandOf(w, m));
  }

  lemma HandledBy(w: World, w1: World, w2: World, w3: World, x: Process, m: MessageId, unused: CopyId, readOk: bool,
          lookOk: bool, changeOk: bool, markOk: bool, toDead: bool)
    requires x !in w.workers && TakenUp(w, w1, x, m, readOk)
    requires if w1.workers[x].Projecting? then Knows(w1, m) && IsCarried(w1, w2, x, m, unused, lookOk, changeOk, markOk) else w2 == w1
    requires Settled(w2, w3, x, m, toDead)
    ensures Handled(w, w3, m, unused, readOk, lookOk, changeOk, markOk, toDead, w2.workers[x].Acking?)
  {
    if w1.workers[x].Projecting? {
      HandledByCarrying(w, w1, w2, w3, x, m, unused, lookOk, changeOk, markOk, toDead);
    } else {
      HandledAtOnce(w, w1, w3, x, m, unused, readOk, lookOk, changeOk, markOk, toDead);
    }
  }

  // What a redriver has no part in.
  predicate BesideRedriver(w: World, w': World) {
    && w'.subjects == w.subjects && w'.owners == w.owners && w'.graph == w.graph && w'.content == w.content
    && w'.relays == w.relays && w'.workers == w.workers && w'.usedLocks == w.usedLocks
  }

  predicate HoldsNothing(w: World, d: Process) {
    d !in w.redrivers && forall m | m in w.place :: w.place[m] != AtRedriver(d) && w.place[m] != Leaving(d)
  }

  predicate CanReopen(w: World, target: Event, ok: bool) {
    ok && target in w.rows && !w.rows[target].processed
  }

  function Reopened(rows: map<Event, Row>, target: Event): map<Event, Row>
    requires target in rows
  {
    rows[target := rows[target].(dispatched := false, lock := None)]
  }

  predicate Targets(w: World, target: Event, m: MessageId) {
    m in w.content && w.content[m] == Some(target)
  }

  // The dead letter was dealt with: its row reopened if that was possible, itself gone or back.
  predicate IsRedriven(w: World, w': World, d: Process, target: Event, m: MessageId, scheduleOk: bool, redriven: bool) {
    && BesideRedriver(w, w') && w'.redrivers == w.redrivers[d := Finishing]
    && w'.rows == (if CanReopen(w, target, scheduleOk) then Reopened(w.rows, target) else w.rows)
    && w'.place == if redriven then w.place - {m} else w.place[m := InDeadLetters]
  }

  lemma ReopensFirst(w: World, d: Process, target: Event, m: MessageId, ok: bool)
    requires d in w.redrivers && w.redrivers[d] == Found(target, m)
    ensures var w' := Redrive(w, d, ok);
            if CanReopen(w, target, ok) then
              w' == w.(rows := Reopened(w.rows, target), place := w.place[m := Leaving(d)], redrivers := w.redrivers[d := AckDue(m)])
            else w' == w.(place := w.place[m := InDeadLetters], redrivers := w.redrivers[d := Finishing])
  {
  }

  lemma AcknowledgesLast(w: World, d: Process, m: MessageId, ok: bool)
    requires d in w.redrivers && w.redrivers[d] == AckDue(m)
    ensures Redrive(w, d, ok) == w.(place := if ok then w.place - {m} else w.place[m := InDeadLetters],
                                    redrivers := w.redrivers[d := Finishing])
  {
  }

  lemma FoundIsRedriven(w: World, d: Process, target: Event, m: MessageId, scheduleOk: bool, ackOk: bool)
    requires d in w.redrivers && w.redrivers[d] == Found(target, m)
    ensures var w1 := Redrive(w, d, scheduleOk);
            && d in w1.redrivers && (w1.redrivers[d].AckDue? <==> CanReopen(w, target, scheduleOk))
            && IsRedriven(w, if w1.redrivers[d].AckDue? then Redrive(w1, d, ackOk) else w1, d, target, m, scheduleOk,
                          w1.redrivers[d].AckDue? && ackOk)
  {
    ReopensFirst(w, d, target, m, scheduleOk);
    var w1 := Redrive(w, d, scheduleOk);
    if CanReopen(w, target, scheduleOk) {
      AcknowledgesLast(w1, d, m, ackOk);
      assert w.place[m := Leaving(d)] - {m} == w.place - {m};
    }
  }

  // The first n letters lie in the dead-letter queue one after the other - one that has been
  // looked at is held - and none of them names the event.
  predicate Passes(w: World, target: Event, letters: seq<MessageId>, n: nat)
    requires n <= |letters|
  {
    && (forall k | 0 <= k < n :: letters[k] in w.place && w.place[letters[k]] == InDeadLetters && !Targets(w, target, letters[k]))
    && (forall j, k | 0 <= j < k < n :: letters[j] in w.content ==> letters[j] != letters[k])
  }

  predicate Next(w: World, letters: seq<MessageId>, n: nat)
    requires n < |letters|
  {
    && letters[n] in w.place && w.place[letters[n]] == InDeadLetters
    && (forall j | 0 <= j < n :: letters[j] in w.content ==> letters[j] != letters[n])
  }

  // The n-th letter is the first that names the event, within the limit.
  predicate Finds(w: World, target: Event, letters: seq<MessageId>, maxScan: int, n: int) {
    && 0 <= n < maxScan && n < |letters|
    && Passes(w, target, letters, n) && Next(w, letters, n) && Targets(w, target, letters[n])
  }

  predicate IsHeld(w0: World, letters: seq<MessageId>, i: nat, m: MessageId)
    requires i <= |letters|
  {
    m in w0.content && exists k :: 0 <= k < i && letters[k] == m
  }

  ghost predicate ScannedTo(w0: World, w: World, d: Process, target: Event, letters: seq<MessageId>, i: nat)
    requires i <= |letters|
  {
    && HoldsNothing(w0, d) && BesideRedriver(w0, w) && w.rows == w0.rows && w.redrivers - {d} == w0.redrivers
    && (d in w.redrivers ==> w.redrivers[d] == Scanning(target))
    && Passes(w0, target, letters, i)
    && w.place.Keys == w0.place.Keys
    && (forall m | m in w.place ::
          w.place[m] == if IsHeld(w0, letters, i, m) then AtRedriver(d) else w0.place[m])
  }

  lemma NothingFound(w0: World, w: World, d: Process, target: Event, letters: seq<MessageId>, i: nat, maxScan: int)
    requires i <= |letters| && i <= maxScan && ScannedTo(w0, w, d, target, letters, i)
    requires i == maxScan || i == |letters| || letters[i] !in w.place || w.place[letters[i]] != InDeadLetters
    ensures forall n :: !Finds(w0, target, letters, maxScan, n)
  {
    if i < maxScan && i < |letters| { NotNext(w0, w, d, target, letters, i); }
  }

  lemma NotNext(w0: World, w: World, d: Process, target: Event, letters: seq<MessageId>, i: nat)
    requires i < |letters| && ScannedTo(w0, w, d, target, letters, i)
    requires letters[i] !in w.place || w.place[letters[i]] != InDeadLetters
    ensures !Next(w0, letters, i)
    ensures forall n | i < n <= |letters| :: !Passes(w0, target, letters, n)
  {
    var m := letters[i];
    if IsHeld(w0, letters, i, m) {
      var j :| 0 <= j < i && letters[j] == m;
      assert letters[j] in w0.content && letters[j] == letters[i];
    } else {
      assert m in w.place.Keys <==> m in w0.place.Keys;
      assert m in w.place ==> w.place[m] == w0.place[m];
    }
  }

  lemma NextOf(w0: World, w: World, d: Process, target: Event, letters: seq<MessageId>, i: nat)
    requires i < |letters| && ScannedTo(w0, w, d, target, letters, i)
    requires letters[i] in w.place && w.place[letters[i]] == InDeadLetters
    ensures Next(w0, letters, i)
  {
    var m := letters[i];
    assert m in w0.place.Keys && !IsHeld(w0, letters, i, m);
    forall j | 0 <= j < i && letters[j] in w0.content ensures letters[j] != m {}
  }

  lemma FoundAt(w0: World, w1: World, w2: World, d: Process, target: Event, letters: seq<MessageId>, i: nat, maxScan: int)
    requires i < |letters| && i < maxScan && ScannedTo(w0, w1, d, target, letters, i)
    requires letters[i] in w1.place && w1.place[letters[i]] == InDeadLetters
    requires w2 == RedriveGet(w1, d, target, letters[i]) && d in w2.redrivers && w2.redrivers[d].Found?
    ensures Finds(w0, target, letters, maxScan, i)
    ensures w2 == w1.(place := w1.place[letters[i] := AtRedriver(d)], redrivers := w1.redrivers[d := Found(target, letters[i])])
  {
    NextOf(w0, w1, d, target, letters, i);
  }

  lemma ScannedOneMore(w0: World, w1: World, w2: World, d: Process, target: Event, letters: seq<MessageId>, i: nat)
    requires i < |letters| && ScannedTo(w0, w1, d, target, letters, i)
    requires letters[i] in w1.place && w1.place[letters[i]] == InDeadLetters
    requires w2 == RedriveGet(w1, d, target, letters[i]) && !(d in w2.redrivers && w2.redrivers[d].Found?)
    ensures ScannedTo(w0, w2, d, target, letters, i + 1)
  {
    NextOf(w0, w1, d, target, letters, i);
    forall m ensures IsHeld(w0, letters, i + 1, m) <==> IsHeld(w0, letters, i, m) || (m in w0.content && m == letters[i]) {
      if m == letters[i] && m in w0.content { assert letters[i] == m; }
    }
  }

  // What a redriver held is a dead letter again.
  ghost predicate IsReleased(w: World, w': World, d: Process) {
    && BesideRedriver(w, w') && w'.rows == w.rows && w'.redrivers == w.redrivers - {d} && w'.place.Keys == w.place.Keys
    && (forall m | m in w.place ::
          w'.place[m] == if w.place[m] == AtRedriver(d) || w.place[m] == Leaving(d) then InDeadLetters else w.place[m])
  }

  lemma MissBack(w0: World, w1: World, w2: World, d: Process, target: Event, letters: seq<MessageId>, i: nat)
    requires i <= |letters| && ScannedTo(w0, w1, d, target, letters, i) && IsReleased(w1, w2, d)
    ensures BesideRedriver(w0, w2) && w2.redrivers == w0.redrivers && w2.rows == w0.rows && w2.place == w0.place
  {
    HeldWereDead(w0, w1, d, target, letters, i);
    forall m | m in w0.place ensures w2.place[m] == w0.place[m] {
      assert m in w1.place.Keys;
    }
  }

  lemma HeldWereDead(w0: World, w: World, d: Process, target: Event, letters: seq<MessageId>, i: nat)
    requires i <= |letters| && ScannedTo(w0, w, d, target, letters, i)
    ensures forall m | m in w0.place :: w.place[m] == AtRedriver(d) ==> w0.place[m] == InDeadLetters
    ensures forall m | m in w0.place :: w.place[m] != AtRedriver(d) ==> w.place[m] == w0.place[m] != Leaving(d)
  {
    forall m | m in w0.place && w.place[m] == AtRedriver(d) ensures w0.place[m] == InDeadLetters {
      assert m in w.place.Keys;
      assert IsHeld(w0, letters, i, m);
      var k :| 0 <= k < i && letters[k] == m;
      assert w0.place[letters[k]] == InDeadLetters;
    }
    forall m | m in w0.place && w.place[m] != AtRedriver(d) ensures w.place[m] == w0.place[m] != Leaving(d) {
      assert m in w.place.Keys;
    }
  }

  lemma HitBack(w0: World, w1: World, w2: World, w3: World, w4: World, d: Process, target: Event, letters: seq<MessageId>,
          i: nat, scheduleOk: bool, redriven: bool)
    requires i < |letters| && ScannedTo(w0, w1, d, target, letters, i)
    requires letters[i] in w1.place && w1.place[letters[i]] == InDeadLetters
    requires w2 == w1.(place := w1.place[letters[i] := AtRedriver(d)], redrivers := w1.redrivers[d := Found(target, letters[i])])
    requires IsRedriven(w2, w3, d, target, letters[i], scheduleOk, redriven) && IsReleased(w3, w4, d)
    ensures BesideRedriver(w0, w4) && w4.redrivers == w0.redrivers
    ensures w4.rows == if CanReopen(w0, target, scheduleOk) then Reopened(w0.rows, target) else w0.rows
    ensures w4.place == if redriven then w0.place - {letters[i]} else w0.place
  {
    HeldWereDead(w0, w1, d, target, letters, i);
    assert w3.place == if redriven then w1.place - {letters[i]} else w1.place;
    forall m | m in w1.place.Keys && (m != letters[i] || !redriven) ensures w4.place[m] == w0.place[m] {
      assert m in w3.place && m in w0.place.Keys;
    }
  }
}
