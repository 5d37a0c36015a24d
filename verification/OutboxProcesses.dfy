// The relay, worker and redriver as the program runs them: loops and branches over a shared
// deployment. Each run is proved to be a sequence of the atomic steps of module Outbox, so what
// is proved there of every interleaving holds of these processes.
module OutboxProcesses {
  import opened Common
  import opened Outbox
  import opened OutboxExact

  class Deployment {
    var w: World

    constructor ()
      ensures w == START
    {
      w := START;
    }

    method Do(st: Step, ghost before: World, ghost steps: seq<Step>) returns (ghost steps': seq<Step>)
      requires w == Run(before, steps)
      modifies this
      ensures steps' == steps + [st] && w == Run(before, steps') && w == Apply(old(w), st)
    {
      RunJoin(before, steps, [st]);
      RunOne(w, st);
      w := Apply(w, st);
      steps' := steps + [st];
    }

    // claim_outbox, asked for the event of the offer.
    method ClaimOffer(r: Process, offer: Offer, ghost before: World, ghost steps: seq<Step>)
      returns (claimed: bool, ghost steps': seq<Step>)
      requires r !in w.relays && w == Run(before, steps)
      modifies this
      ensures w == Run(before, steps') && Beside(old(w), w) && w.content == old(w).content && w.place == old(w).place
      ensures claimed <==> CanClaim(old(w), offer)
      ensures !claimed ==> w == old(w)
      ensures claimed ==>
                && w.rows == old(w).rows[offer.e := old(w).rows[offer.e].(lock := Some(offer.lock))]
                && w.relays == old(w).relays[r := Claimed(offer.e, offer.lock)]
                && w.usedLocks == old(w).usedLocks + {offer.lock}
    {
      steps' := Do(ClaimStep(r, offer.e, offer.lock, offer.expired), before, steps);
      claimed := r in w.relays;
    }

    // The claimed event is published; Published? says the broker confirmed it. A message id that
    // is taken stands for a process cancelled before the broker answers.
    method PublishClaimed(r: Process, m: MessageId, outcome: Outcome, ghost before: World, ghost steps: seq<Step>)
      returns (ghost steps': seq<Step>)
      requires r in w.relays && w.relays[r].Claimed? && w == Run(before, steps)
      modifies this
      ensures w == Run(before, steps') && r in w.relays && w.relays.Keys == old(w).relays.Keys && Beside(old(w), w)
      ensures w.rows == old(w).rows && w.usedLocks == old(w).usedLocks
      ensures var pc := old(w).relays[r];
              w.relays[r] == if m in old(w).content then pc
                             else if outcome == Confirmed then Published(pc.e, pc.lock, m) else Releasing(pc.e, pc.lock)
      ensures var stored := m !in old(w).content && outcome != Refused;
              && w.content == (if stored then old(w).content[m := Some(old(w).relays[r].e)] else old(w).content)
              && w.place == (if stored then old(w).place[m := InQueue] else old(w).place)
    {
      steps' := Do(PublishStep(r, m, outcome), before, steps);
    }

    method MarkOrRelease(r: Process, ghost before: World, ghost steps: seq<Step>) returns (marked: bool,
            ghost steps': seq<Step>)
      requires r in w.relays && !w.relays[r].Claimed? && w == Run(before, steps)
      modifies this
      ensures w == Run(before, steps') && r !in w.relays && Beside(old(w), w)
      ensures w.place == old(w).place && w.content == old(w).content && w.usedLocks == old(w).usedLocks
      ensures marked <==> old(w).relays[r].Published? && Owns(old(w), old(w).relays[r])
      ensures w.rows == if Owns(old(w), old(w).relays[r]) then Unlocked(old(w).rows, old(w).relays[r].e, marked) else old(w).rows
    {
      FinishExactly(w, r);
      marked := w.relays[r].Published? && HoldsLock(w, w.relays[r].e, w.relays[r].lock);
      steps' := Do(RelayStep(r), before, steps);
    }

    // One turn of the relay: claim, publish, and only then mark. An event is claimed exactly when
    // it is neither dispatched nor processed and its lock is free or expired; it is marked
    // exactly when moreover its message is new and the broker confirmed it.
    method RelayTurn(r: Process, offer: Offer, ghost before: World, ghost steps: seq<Step>)
      returns (claimed: bool, marked: bool, ghost steps': seq<Step>)
      requires r !in w.relays && w == Run(before, steps)
      modifies this
      ensures w == Run(before, steps') && r !in w.relays && Beside(old(w), w)
      ensures claimed <==> CanClaim(old(w), offer)
      ensures marked <==> CanClaim(old(w), offer) && offer.m !in old(w).content && offer.outcome == Confirmed
      ensures !claimed ==> w == old(w)
      ensures claimed ==> Turned(old(w), w, offer, marked) && w.usedLocks == old(w).usedLocks + {offer.lock}
    {
      claimed, steps' := ClaimOffer(r, offer, before, steps);
      if !claimed { return false, false, steps'; }
      steps' := PublishClaimed(r, offer.m, offer.outcome, before, steps');
      if w.relays[r].Claimed? {
        // the process is cancelled before the broker answers
        steps' := Do(RelayCrashStep(r), before, steps');
        return true, false, steps';
      }
      marked, steps' := MarkOrRelease(r, before, steps');
    }

    // The turn of the k-th offer, after the ones before it were relayed.
    method RelayNext(r: Process, offers: seq<Offer>, k: nat, ghost before: World, ghost steps: seq<Step>)
      returns (claimed: bool, marked: bool, ghost steps': seq<Step>)
      requires r !in w.relays && w == Run(before, steps)
      requires k < |offers| && Swept(before, w, offers, k)
      modifies this
      ensures w == Run(before, steps') && r !in w.relays
      ensures !claimed ==> w == old(w) && !marked && !CanClaim(w, offers[k])
      ensures marked ==> Swept(before, w, offers, k + 1)
      ensures claimed && !marked ==> BrokenOff(before, w, offers, k)
    {
      claimed, marked, steps' := RelayTurn(r, offers[k], before, steps);
      if claimed {
        TurnSweeps(before, old(w), w, offers, k, marked);
      }
    }

    // Relays events until the limit, an empty outbox or an error. None is the error; `done` is the
    // number of events dispatched, with or without one. Fewer than the limit means that the offers
    // ran out or the next one could not be claimed; an error, that the next one was claimed and
    // its message not confirmed.
    method RelayOnce(r: Process, limit: int, offers: seq<Offer>) returns (dispatched: Option<int>,
            ghost done: nat, ghost steps: seq<Step>)
      requires r !in w.relays
      modifies this
      ensures w == Run(old(w), steps) && r !in w.relays
      ensures limit < 1 ==> dispatched.None? && steps == [] && done == 0 && w == old(w)
      ensures dispatched.Some? ==> dispatched.value == done <= limit && done <= |offers| && Swept(old(w), w, offers, done)
      ensures dispatched.Some? && done < limit ==> done == |offers| || !CanClaim(w, offers[done])
      ensures limit >= 1 && dispatched.None? ==> done < limit && done < |offers| && BrokenOff(old(w), w, offers, done)
    {
      steps, done := [], 0;
      if limit < 1 { return None, done, steps; }
      var count := 0;
      SweptNothing(w, offers);
      while count < limit && count < |offers|
        invariant 0 <= count <= limit && count <= |offers| && done == count
        invariant w == Run(old(w), steps) && r !in w.relays
        invariant Swept(old(w), w, offers, count)
      {
        var claimed, marked;
        claimed, marked, steps := RelayNext(r, offers, count, old(w), steps);
        if !claimed { break; }
        if !marked { return None, done, steps; }
        count, done := count + 1, done + 1;
      }
      return Some(count), done, steps;
    }

    // Handles one delivery to its end: reads the command, looks at the graph, changes it if need
    // be, marks, acknowledges. The message is gone afterwards exactly if its command was read and
    // either was done before or still has its content and every call needed for it went through;
    // what the graph and the database are then, and otherwise, is said in full.
    method Handle(x: Process, m: MessageId, unused: CopyId, readOk: bool, lookOk: bool, changeOk: bool, markOk: bool,
            toDead: bool)
      returns (acknowledged: bool, ghost steps: seq<Step>)
      requires Inv(w) && x !in w.workers && m in w.place && w.place[m] == InQueue && unused !in w.graph.used
      modifies this
      ensures Inv(w) && w == Run(old(w), steps)
      ensures Handled(old(w), w, m, unused, readOk, lookOk, changeOk, markOk, toDead, acknowledged)
      ensures acknowledged ==> m in w.content && w.content[m].Some? && CarriedOut(w, w.content[m].value)
    {
      ghost var w0 := w;
      steps := TakeUp(x, m, readOk, toDead);
      ghost var w1 := w;
      if w.workers[x].Projecting? {
        steps := Carry(x, m, unused, lookOk, changeOk, markOk, toDead, old(w), steps);
      }
      ghost var w2 := w;
      acknowledged := w.workers[x].Acking?;
      steps := Settle(x, m, toDead, old(w), steps);
      HandledBy(w0, w1, w2, w, x, m, unused, readOk, lookOk, changeOk, markOk, toDead);
    }

    // The message is delivered and its command read.
    method TakeUp(x: Process, m: MessageId, ok: bool, toDead: bool) returns (ghost steps: seq<Step>)
      requires Inv(w) && x !in w.workers && m in w.place && w.place[m] == InQueue
      modifies this
      ensures Inv(w) && w == Run(old(w), steps) && TakenUp(old(w), w, x, m, ok)
    {
      TakeUpExactly(w, x, m, ok, toDead);
      steps := Do(DeliverStep(x, m), old(w), []);
      ApplyKeeps(old(w), DeliverStep(x, m));
      steps := WorkOn(x, m, ok, 0, toDead, old(w), steps);
    }

    // From the look at the graph to the mark.
    method Carry(x: Process, m: MessageId, unused: CopyId, lookOk: bool, changeOk: bool, markOk: bool, toDead: bool,
            ghost before: World, ghost steps: seq<Step>)
      returns (ghost steps': seq<Step>)
      requires Inv(w) && w == Run(before, steps) && x in w.workers && w.workers[x].m == m && w.workers[x].Projecting?
      requires unused !in w.graph.used && Knows(w, m) && w.subjects[CommandOf(w, m)].phase == Waiting
      modifies this
      ensures Inv(w) && w == Run(before, steps') && IsCarried(old(w), w, x, m, unused, lookOk, changeOk, markOk)
    {
      ghost var w0 := w;
      steps' := LookUp(x, m, lookOk, toDead, before, steps);
      ghost var w1 := w;
      if w.workers[x].Writing? || w.workers[x].Deleting? {
        ChangeExactly(w, x, m, unused, changeOk, toDead);
        steps' := WorkOn(x, m, changeOk, unused, toDead, before, steps');
      }
      ghost var w2 := w;
      if w.workers[x].Marking? {
        KnowsStill(w0, w2, m);
        steps' := MarkIt(x, m, markOk, toDead, before, steps');
      }
      CarriedBy(w0, w1, w2, w, x, m, unused, lookOk, changeOk, markOk);
    }

    // The command and its events are closed in one transaction.
    method MarkIt(x: Process, m: MessageId, ok: bool, toDead: bool, ghost before: World, ghost steps: seq<Step>)
      returns (ghost steps': seq<Step>)
      requires Inv(w) && w == Run(before, steps) && x in w.workers && w.workers[x] == Marking(m)
      requires Knows(w, m) && w.subjects[CommandOf(w, m)].phase == Waiting
      modifies this
      ensures Inv(w) && w == Run(before, steps') && IsMarked(old(w), w, x, m, ok)
    {
      MarkExactly(w, x, m);
      steps' := WorkOn(x, m, ok, 0, toDead, before, steps);
    }

    // A call the worker makes for the message it holds.
    method WorkOn(x: Process, m: MessageId, ok: bool, copy: CopyId, toDead: bool, ghost before: World,
            ghost steps: seq<Step>)
      returns (ghost steps': seq<Step>)
      requires Inv(w) && w == Run(before, steps) && x in w.workers && w.workers[x].m == m
      requires !w.workers[x].Acking? && !w.workers[x].Rejecting?
      modifies this
      ensures Inv(w) && w == Run(before, steps') && x in w.workers && w.workers[x].m == m
      ensures w == Work(old(w), x, ok, toDead, copy) && w.place == old(w).place
      ensures !ok ==> w == Goes(old(w), x, Rejecting(m))
      ensures ok && old(w).workers[x].Got? ==> w == Goes(old(w), x, Ready(old(w), m))
      ensures ok && old(w).workers[x].Projecting? ==> w == Goes(old(w), x, Project(old(w).graph, old(w).workers[x], copy))
      ensures ok && (old(w).workers[x].Deleting? || (old(w).workers[x].Writing? && copy !in old(w).graph.used)) ==> w.workers[x] == Marking(m)
      ensures ok && old(w).workers[x].Marking? ==> w.workers[x] == Acking(m)
    {
      assert WorkerFits(w, x, w.workers[x]);
      ApplyKeeps(w, WorkStep(x, ok, toDead, copy));
      steps' := Do(WorkStep(x, ok, toDead, copy), before, steps);
    }

    // The look at the graph: an erasure comes upon a copy of its node if there is one.
    method LookUp(x: Process, m: MessageId, ok: bool, toDead: bool, ghost before: World, ghost steps: seq<Step>)
      returns (ghost steps': seq<Step>)
      requires Inv(w) && w == Run(before, steps) && x in w.workers && w.workers[x].m == m && w.workers[x].Projecting?
      modifies this
      ensures Inv(w) && w == Run(before, steps') && IsLookedUp(old(w), w, x, m, ok)
      ensures !w.workers[x].Acking? && !w.workers[x].Got? && !w.workers[x].Projecting?
    {
      var copy := 0;
      var seen := w.workers[x].seen;
      if seen.Some? && seen.value.Erase? && Present(w.graph, seen.value.node) {
        copy :| copy in w.graph.copies && w.graph.copies[copy].node == seen.value.node;
      }
      steps' := WorkOn(x, m, ok, copy, toDead, before, steps);
    }

    // The acknowledgement, or the rejection, that ends a delivery.
    method Settle(x: Process, m: MessageId, toDead: bool, ghost before: World, ghost steps: seq<Step>)
      returns (ghost steps': seq<Step>)
      requires Inv(w) && w == Run(before, steps)
      requires x in w.workers && (w.workers[x] == Acking(m) || w.workers[x] == Rejecting(m))
      modifies this
      ensures Inv(w) && w == Run(before, steps') && Settled(old(w), w, x, m, toDead)
      ensures old(w).workers[x] == Acking(m) ==> m in w.content && w.content[m].Some? && CarriedOut(w, w.content[m].value)
    {
      assert WorkerFits(w, x, w.workers[x]);
      if w.workers[x].Acking? { AckingIsDone(w, x); }
      ApplyKeeps(w, WorkStep(x, true, toDead, 0));
      steps' := Do(WorkStep(x, true, toDead, 0), before, steps);
    }

    // The dead letter looked for is at hand: reopen its row, then acknowledge it.
    method RedriveFound(d: Process, target: Event, m: MessageId, scheduleOk: bool, ackOk: bool,
            ghost before: World, ghost steps: seq<Step>)
      returns (redriven: bool, ghost steps': seq<Step>)
      requires d in w.redrivers && w.redrivers[d] == Found(target, m) && w == Run(before, steps)
      modifies this
      ensures w == Run(before, steps') && IsRedriven(old(w), w, d, target, m, scheduleOk, redriven)
      ensures redriven <==> CanReopen(old(w), target, scheduleOk) && ackOk
    {
      FoundIsRedriven(w, d, target, m, scheduleOk, ackOk);
      steps' := Do(RedriveStep(d, scheduleOk), before, steps);
      redriven := w.redrivers[d].AckDue? && ackOk;
      if w.redrivers[d].AckDue? {
        steps' := Do(RedriveStep(d, ackOk), before, steps');
      }
    }

    // Whatever a redriver still holds goes back to the dead letters.
    method ReleaseHeld(d: Process, ghost before: World, ghost steps: seq<Step>) returns (ghost steps': seq<Step>)
      requires w == Run(before, steps)
      requires d in w.redrivers ==> w.redrivers[d].Scanning? || w.redrivers[d].Finishing?
      modifies this
      ensures w == Run(before, steps') && IsReleased(old(w), w, d)
    {
      steps' := steps;
      if d in w.redrivers && w.redrivers[d].Scanning? {
        steps' := Do(RedriveStep(d, true), before, steps');
      }
      steps' := Do(RedriverCrashStep(d), before, steps');
    }

    // Looks through at most `maxScan` of the dead letters the broker hands out for one event,
    // reopens its row, then acknowledges the dead letter. It succeeds exactly when one of them
    // names the event, the event is not processed yet and both calls go through. Whatever else it
    // looked at is a dead letter again.
    method RedriveExact(d: Process, target: Event, maxScan: int, letters: seq<MessageId>, scheduleOk: bool,
            ackOk: bool)
      returns (redriven: bool, ghost steps: seq<Step>)
      requires HoldsNothing(w, d)
      modifies this
      ensures w == Run(old(w), steps) && BesideRedriver(old(w), w) && w.redrivers == old(w).redrivers
      ensures !(1 <= maxScan <= 10_000) ==> !redriven && w == old(w)
      ensures var found := 1 <= maxScan <= 10_000 && exists n :: Finds(old(w), target, letters, maxScan, n);
              && (redriven <==> found && CanReopen(old(w), target, scheduleOk) && ackOk)
              && w.rows == if found && CanReopen(old(w), target, scheduleOk) then Reopened(old(w).rows, target) else old(w).rows
      ensures if redriven then exists n :: Finds(old(w), target, letters, maxScan, n) && w.place == old(w).place - {letters[n]}
              else w.place == old(w).place
    {
      steps := [];
      redriven := false;
      if !(1 <= maxScan <= 10_000) { return; }
      var i := 0;
      ghost var hit, w1, w2, w3 := false, w, w, w;
      while i < maxScan && i < |letters|
        invariant 0 <= i <= maxScan && i <= |letters| && !hit && !redriven
        invariant w == Run(old(w), steps) && ScannedTo(old(w), w, d, target, letters, i)
        decreases |letters| - i
      {
        if letters[i] !in w.place || w.place[letters[i]] != InDeadLetters { break; }
        w1 := w;
        steps := Do(GetStep(d, target, letters[i]), old(w), steps);
        if d in w.redrivers && w.redrivers[d].Found? {
          hit, w2 := true, w;
          FoundAt(old(w), w1, w, d, target, letters, i, maxScan);
          redriven, steps := RedriveFound(d, target, letters[i], scheduleOk, ackOk, old(w), steps);
          break;
        }
        ScannedOneMore(old(w), w1, w, d, target, letters, i);
        i := i + 1;
      }
      w3 := w;
      if !hit { NothingFound(old(w), w, d, target, letters, i, maxScan); }
      steps := ReleaseHeld(d, old(w), steps);
      if hit {
        HitBack(old(w), w1, w2, w3, w, d, target, letters, i, scheduleOk, redriven);
      } else {
        MissBack(old(w), w3, w, d, target, letters, i);
      }
    }
  }
}
