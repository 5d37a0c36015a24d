// Backup retention: the planner, its execution, and nightly pruning over whole histories.
//
// An instant counts microseconds from 0001-01-01T00:00Z, which was a Monday, so floor
// division gives the UTC day and the Monday-aligned (ISO) week.
module Retention {
  import opened Common

  const MICROSECONDS_PER_DAY: int := 86_400_000_000

  datatype Manifest = Manifest(id: string, tenant: string, createdAt: int, complete: bool)

  datatype Pin = Pin(backupId: string, reason: string)

  datatype Warning =
    | IncompleteRetained(backupId: string)
    | PinnedBy(reason: string, backupId: string)

  datatype Plan = Plan(keep: seq<string>, delete: seq<string>, pins: seq<Pin>, warnings: seq<Warning>)

  datatype PlanError = NegativeWindow | DuplicateBackupId

  datatype Windows = Windows(daily: int, weekly: int)

  datatype Period = Ever | Day | Week

  function Key(period: Period, m: Manifest): int {
    match period
    case Ever => 0
    case Day => m.createdAt / MICROSECONDS_PER_DAY
    case Week => m.createdAt / MICROSECONDS_PER_DAY / 7
  }

  // ---------------------------------------------------------------------------
  // Listings
  // ---------------------------------------------------------------------------

  function Ids(ms: seq<Manifest>): (ids: seq<string>)
    ensures |ids| == |ms| && forall i | 0 <= i < |ms| :: ids[i] == ms[i].id
  {
    if ms == [] then [] else [ms[0].id] + Ids(ms[1..])
  }

  function IdSet(ms: seq<Manifest>): set<string> {
    set m | m in ms :: m.id
  }

  ghost predicate UniqueIds(ms: seq<Manifest>) {
    forall i, j | 0 <= i < j < |ms| :: ms[i].id != ms[j].id
  }

  function Restrict(ms: seq<Manifest>, ids: set<string>): seq<Manifest> {
    if ms == [] then []
    else (if ms[0].id in ids then [ms[0]] else []) + Restrict(ms[1..], ids)
  }

  function CompleteOf(ms: seq<Manifest>, tenant: string): seq<Manifest> {
    if ms == [] then []
    else (if ms[0].tenant == tenant && ms[0].complete then [ms[0]] else []) + CompleteOf(ms[1..], tenant)
  }

  function IncompleteOf(ms: seq<Manifest>): seq<Manifest> {
    if ms == [] then []
    else (if ms[0].complete then [] else [ms[0]]) + IncompleteOf(ms[1..])
  }

  // Stable, newest first: among equal instants the earlier listed manifest stays first.
  function NewestFirst(ms: seq<Manifest>): seq<Manifest> {
    if ms == [] then [] else Insert(ms[0], NewestFirst(ms[1..]))
  }

  function Insert(m: Manifest, ordered: seq<Manifest>): seq<Manifest> {
    if ordered == [] || ordered[0].createdAt <= m.createdAt then [m] + ordered
    else [ordered[0]] + Insert(m, ordered[1..])
  }

  ghost predicate Descending(ms: seq<Manifest>) {
    forall i, j | 0 <= i < j < |ms| :: ms[i].createdAt >= ms[j].createdAt
  }

  function CreatedAt(ms: seq<Manifest>, instant: int): seq<Manifest> {
    if ms == [] then []
    else (if ms[0].createdAt == instant then [ms[0]] else []) + CreatedAt(ms[1..], instant)
  }

  // ---------------------------------------------------------------------------
  // What a plan retains
  // ---------------------------------------------------------------------------

  // One bounded window of the newest-first pass, with the periods already seen.
  function KeepBy(ordered: seq<Manifest>, period: Period, seen: set<int>, limit: int): set<string> {
    if ordered == [] then {}
    else
      var key := Key(period, ordered[0]);
      if |seen| < limit && key !in seen
      then {ordered[0].id} + KeepBy(ordered[1..], period, seen + {key}, limit)
      else KeepBy(ordered[1..], period, seen, limit)
  }

  // The newest recovery point fills the single slot of the period that never ends.
  function TenantKeep(complete: seq<Manifest>, w: Windows): set<string> {
    KeepBy(complete, Ever, {}, 1) + KeepBy(complete, Day, {}, w.daily) + KeepBy(complete, Week, {}, w.weekly)
  }

  function PinIds(pins: seq<Pin>): set<string> {
    set pin | pin in pins :: pin.backupId
  }

  function TenantsOf(ms: seq<Manifest>): set<string> {
    set m | m in ms :: m.tenant
  }

  ghost function KeptOver(ordered: seq<Manifest>, tenants: set<string>, w: Windows): set<string> {
    set t, id | t in tenants && id in TenantKeep(CompleteOf(ordered, t), w) :: id
  }

  ghost function Retained(ms: seq<Manifest>, w: Windows, pins: seq<Pin>): set<string> {
    PinIds(pins) + IdSet(IncompleteOf(ms)) + KeptOver(NewestFirst(ms), TenantsOf(ms), w)
  }

  // The inventory left when a plan's whole delete list is dropped.
  ghost function Prune(ms: seq<Manifest>, w: Windows, pins: seq<Pin>): seq<Manifest> {
    Restrict(ms, Retained(ms, w, pins))
  }

  // ---------------------------------------------------------------------------
  // Facts about listings
  // ---------------------------------------------------------------------------

  lemma RestrictMembers(ms: seq<Manifest>, ids: set<string>)
    ensures forall m :: m in Restrict(ms, ids) <==> m in ms && m.id in ids
  {
  }

  lemma CompleteMembers(ms: seq<Manifest>, tenant: string)
    ensures forall m :: m in CompleteOf(ms, tenant) <==> m in ms && m.tenant == tenant && m.complete
  {
  }

  lemma IncompleteMembers(ms: seq<Manifest>)
    ensures forall m :: m in IncompleteOf(ms) <==> m in ms && !m.complete
  {
  }

  lemma RestrictCons(m: Manifest, ms: seq<Manifest>, ids: set<string>)
    ensures Restrict([m] + ms, ids) == (if m.id in ids then [m] else []) + Restrict(ms, ids)
  {
    assert ([m] + ms)[1..] == ms;
  }

  lemma Associates(a: seq<Manifest>, b: seq<Manifest>, c: seq<Manifest>)
    ensures (a + b) + c == a + (b + c)
  {
  }

  lemma {:induction false} RestrictConcat(a: seq<Manifest>, b: seq<Manifest>, ids: set<string>)
    ensures Restrict(a + b, ids) == Restrict(a, ids) + Restrict(b, ids)
  {
    if a == [] {
      assert a + b == b;
    } else {
      var m, rest := a[0], a[1..];
      assert a == [m] + rest;
      Associates([m], rest, b);
      RestrictConcat(rest, b, ids);
      RestrictCons(m, rest + b, ids);
      RestrictCons(m, rest, ids);
      Associates(if m.id in ids then [m] else [], Restrict(rest, ids), Restrict(b, ids));
    }
  }

  lemma RestrictAgree(ms: seq<Manifest>, ids: set<string>, others: set<string>)
    requires forall m | m in ms :: m.id in ids <==> m.id in others
    ensures Restrict(ms, ids) == Restrict(ms, others)
  {
    if ms != [] {
      RestrictAgree(ms[1..], ids, others);
    }
  }

  lemma RestrictAll(ms: seq<Manifest>, ids: set<string>)
    requires IdSet(ms) <= ids
    ensures Restrict(ms, ids) == ms
  {
    if ms != [] {
      assert ms[0].id in IdSet(ms);
      forall id | id in IdSet(ms[1..]) ensures id in ids { assert id in IdSet(ms); }
      RestrictAll(ms[1..], ids);
    }
  }

  lemma {:induction false} RestrictNone(ms: seq<Manifest>, ids: set<string>)
    requires IdSet(ms) !! ids
    ensures Restrict(ms, ids) == []
  {
    if ms != [] {
      assert ms[0].id in IdSet(ms);
      assert IdSet(ms[1..]) <= IdSet(ms);
      RestrictNone(ms[1..], ids);
    }
  }

  lemma UniqueSplit(a: seq<Manifest>, b: seq<Manifest>)
    requires UniqueIds(a + b)
    ensures UniqueIds(a) && UniqueIds(b) && IdSet(a) !! IdSet(b)
    ensures IdSet(a + b) == IdSet(a) + IdSet(b)
  {
    var all := a + b;
    assert forall i | 0 <= i < |a| :: all[i] == a[i];
    assert forall i | 0 <= i < |b| :: all[|a| + i] == b[i];
    forall m, n | m in a && n in b ensures m.id != n.id {
      var i :| 0 <= i < |a| && a[i] == m;
      var j :| 0 <= j < |b| && b[j] == n;
      assert all[i].id != all[|a| + j].id;
    }
  }

  lemma {:induction false} RestrictTwice(ms: seq<Manifest>, ids: set<string>, others: set<string>)
    ensures Restrict(Restrict(ms, ids), others) == Restrict(ms, ids * others)
  {
    if ms != [] {
      RestrictTwice(ms[1..], ids, others);
      RestrictConcat(if ms[0].id in ids then [ms[0]] else [], Restrict(ms[1..], ids), others);
    }
  }

  lemma CompleteCons(m: Manifest, ms: seq<Manifest>, tenant: string)
    ensures CompleteOf([m] + ms, tenant) == (if m.tenant == tenant && m.complete then [m] else []) + CompleteOf(ms, tenant)
  {
    assert ([m] + ms)[1..] == ms;
  }

  lemma {:induction false} CompleteConcat(a: seq<Manifest>, b: seq<Manifest>, tenant: string)
    ensures CompleteOf(a + b, tenant) == CompleteOf(a, tenant) + CompleteOf(b, tenant)
  {
    if a == [] {
      assert a + b == b;
    } else {
      var m, rest := a[0], a[1..];
      assert a == [m] + rest;
      Associates([m], rest, b);
      CompleteConcat(rest, b, tenant);
      CompleteCons(m, rest + b, tenant);
      CompleteCons(m, rest, tenant);
      Associates(if m.tenant == tenant && m.complete then [m] else [], CompleteOf(rest, tenant), CompleteOf(b, tenant));
    }
  }

  lemma CompleteRestrict(ms: seq<Manifest>, ids: set<string>, tenant: string)
    ensures CompleteOf(Restrict(ms, ids), tenant) == Restrict(CompleteOf(ms, tenant), ids)
  {
    if ms != [] {
      CompleteRestrict(ms[1..], ids, tenant);
      CompleteConcat(if ms[0].id in ids then [ms[0]] else [], Restrict(ms[1..], ids), tenant);
      RestrictConcat(if ms[0].tenant == tenant && ms[0].complete then [ms[0]] else [],
                     CompleteOf(ms[1..], tenant), ids);
    }
  }

  lemma {:induction false} InsertPermutes(m: Manifest, ordered: seq<Manifest>)
    ensures multiset(Insert(m, ordered)) == multiset(ordered) + multiset{m}
  {
    if ordered != [] {
      assert ordered == [ordered[0]] + ordered[1..];
      InsertPermutes(m, ordered[1..]);
    }
  }

  lemma {:induction false} InsertDescending(m: Manifest, ordered: seq<Manifest>)
    requires Descending(ordered)
    ensures Descending(Insert(m, ordered))
  {
    if ordered != [] && ordered[0].createdAt > m.createdAt {
      var rest := Insert(m, ordered[1..]);
      InsertDescending(m, ordered[1..]);
      forall i | 0 <= i < |rest| ensures ordered[0].createdAt >= rest[i].createdAt {
        InsertPermutes(m, ordered[1..]);
        assert rest[i] in multiset(rest);
      }
    }
  }

  lemma CreatedAtCons(m: Manifest, ms: seq<Manifest>, instant: int)
    ensures CreatedAt([m] + ms, instant) == (if m.createdAt == instant then [m] else []) + CreatedAt(ms, instant)
  {
    assert ([m] + ms)[1..] == ms;
  }

  lemma {:induction false} InsertStable(m: Manifest, ordered: seq<Manifest>, instant: int)
    requires Descending(ordered)
    ensures CreatedAt(Insert(m, ordered), instant)
         == (if m.createdAt == instant then [m] else []) + CreatedAt(ordered, instant)
  {
    if ordered != [] && ordered[0].createdAt > m.createdAt {
      var first, rest := ordered[0], ordered[1..];
      assert ordered == [first] + rest;
      InsertStable(m, rest, instant);
      CreatedAtCons(first, Insert(m, rest), instant);
      CreatedAtCons(first, rest, instant);
      NoneNewer(m, first, rest, instant);
    } else {
      CreatedAtCons(m, ordered, instant);
    }
  }

  // Before a manifest's own instant comes nothing of that instant.
  lemma NoneNewer(m: Manifest, first: Manifest, rest: seq<Manifest>, instant: int)
    requires first.createdAt > m.createdAt
    ensures var a, b := if first.createdAt == instant then [first] else [], if m.createdAt == instant then [m] else [];
            a + (b + CreatedAt(rest, instant)) == b + (a + CreatedAt(rest, instant))
  {
  }

  // The listing order: a permutation, newest first, ties in their original order.
  lemma {:induction false} NewestFirstSorts(ms: seq<Manifest>)
    ensures Descending(NewestFirst(ms))
    ensures multiset(NewestFirst(ms)) == multiset(ms)
    ensures forall instant :: CreatedAt(NewestFirst(ms), instant) == CreatedAt(ms, instant)
  {
    if ms != [] {
      NewestFirstSorts(ms[1..]);
      InsertDescending(ms[0], NewestFirst(ms[1..]));
      InsertPermutes(ms[0], NewestFirst(ms[1..]));
      assert ms == [ms[0]] + ms[1..];
      forall instant {
        InsertStable(ms[0], NewestFirst(ms[1..]), instant);
      }
    }
  }

  lemma NewestFirstMembers(ms: seq<Manifest>)
    ensures forall m :: m in NewestFirst(ms) <==> m in ms
  {
    NewestFirstSorts(ms);
    forall m ensures m in NewestFirst(ms) <==> m in ms {
      assert m in multiset(NewestFirst(ms)) <==> m in multiset(ms);
    }
  }

  lemma {:induction false} InsertRestrict(m: Manifest, ordered: seq<Manifest>, ids: set<string>)
    requires Descending(ordered)
    ensures Restrict(Insert(m, ordered), ids)
         == if m.id in ids then Insert(m, Restrict(ordered, ids)) else Restrict(ordered, ids)
  {
    if ordered == [] || ordered[0].createdAt <= m.createdAt {
      assert ([m] + ordered)[1..] == ordered;
      RestrictMembers(ordered, ids);
      var rest := Restrict(ordered, ids);
      if rest != [] {
        assert rest[0] in ordered;
      }
    } else {
      InsertRestrict(m, ordered[1..], ids);
      assert ([ordered[0]] + Insert(m, ordered[1..]))[1..] == Insert(m, ordered[1..]);
      if ordered[0].id in ids {
        assert ([ordered[0]] + Restrict(ordered[1..], ids))[1..] == Restrict(ordered[1..], ids);
      } else {
        assert [] + Restrict(ordered[1..], ids) == Restrict(ordered[1..], ids);
      }
    }
  }

  // Sorting and dropping backups commute.
  lemma {:induction false} NewestFirstRestrict(ms: seq<Manifest>, ids: set<string>)
    ensures NewestFirst(Restrict(ms, ids)) == Restrict(NewestFirst(ms), ids)
  {
    if ms != [] {
      NewestFirstRestrict(ms[1..], ids);
      NewestFirstSorts(ms[1..]);
      InsertRestrict(ms[0], NewestFirst(ms[1..]), ids);
      if ms[0].id in ids {
        assert ([ms[0]] + Restrict(ms[1..], ids))[1..] == Restrict(ms[1..], ids);
      } else {
        assert [] + Restrict(ms[1..], ids) == Restrict(ms[1..], ids);
      }
    }
  }

  // ---------------------------------------------------------------------------
  // One window of the pass
  // ---------------------------------------------------------------------------

  lemma {:induction false} KeepByMembers(o: seq<Manifest>, period: Period, seen: set<int>, limit: int)
    ensures KeepBy(o, period, seen, limit) <= IdSet(o)
  {
    if o != [] {
      var key := Key(period, o[0]);
      KeepByMembers(o[1..], period, seen + {key}, limit);
      KeepByMembers(o[1..], period, seen, limit);
      assert IdSet(o[1..]) <= IdSet(o);
      assert o[0].id in IdSet(o);
    }
  }

  // Dropping backups the window does not keep never changes what it keeps.
  lemma {:induction false} KeepByIndependent(o: seq<Manifest>, period: Period, seen: set<int>, limit: int,
          ids: set<string>)
    requires KeepBy(o, period, seen, limit) <= ids
    ensures KeepBy(Restrict(o, ids), period, seen, limit) == KeepBy(o, period, seen, limit)
  {
    if o != [] {
      var key := Key(period, o[0]);
      var next := if |seen| < limit && key !in seen then seen + {key} else seen;
      KeepByIndependent(o[1..], period, next, limit, ids);
      if o[0].id in ids {
        assert Restrict(o, ids)[1..] == Restrict(o[1..], ids);
      } else {
        assert Restrict(o, ids) == Restrict(o[1..], ids);
      }
    }
  }

  // Periods already seen only ever take slots away.
  lemma {:induction false} KeepBySeen(o: seq<Manifest>, period: Period, seen: set<int>, more: set<int>, limit: int)
    requires seen <= more || limit <= |more|
    ensures KeepBy(o, period, more, limit) <= KeepBy(o, period, seen, limit)
  {
    if o != [] {
      var key := Key(period, o[0]);
      if seen <= more {
        assert more == seen + (more - seen);
        assert |seen| <= |more|;
      }
      KeepBySeen(o[1..], period,
                 if |seen| < limit && key !in seen then seen + {key} else seen,
                 if |more| < limit && key !in more then more + {key} else more, limit);
    }
  }

  // A backup kept among many is kept among any fewer.
  lemma {:induction false} KeepByHeritage(o: seq<Manifest>, period: Period, seen: set<int>, limit: int,
          ids: set<string>)
    ensures KeepBy(o, period, seen, limit) * ids <= KeepBy(Restrict(o, ids), period, seen, limit)
  {
    if o != [] {
      var key := Key(period, o[0]);
      var next := if |seen| < limit && key !in seen then seen + {key} else seen;
      KeepByHeritage(o[1..], period, next, limit, ids);
      if o[0].id in ids {
        assert Restrict(o, ids)[1..] == Restrict(o[1..], ids);
      } else {
        assert Restrict(o, ids) == Restrict(o[1..], ids);
        KeepBySeen(Restrict(o[1..], ids), period, seen, next, limit);
      }
    }
  }

  ghost function KeysOf(ms: seq<Manifest>, period: Period): set<int> {
    set m | m in ms :: Key(period, m)
  }

  // The periods of the listing that are more recent than `key`.
  ghost function NewerKeys(ms: seq<Manifest>, period: Period, key: int): set<int> {
    set m | m in ms && Key(period, m) > key :: Key(period, m)
  }

  // Entry i is the newest of its period, and its period is among the `limit` most recent ones.
  ghost predicate HoldsSlot(o: seq<Manifest>, period: Period, limit: int, i: nat)
    requires i < |o|
  {
    && (forall j | 0 <= j < i :: Key(period, o[j]) != Key(period, o[i]))
    && |NewerKeys(o, period, Key(period, o[i]))| < limit
  }

  lemma Bigger<T>(a: set<T>, b: set<T>)
    ensures |a| <= |a + b|
  {
    assert a + b == a + (b - a);
  }

  ghost function SeenBefore(o: seq<Manifest>, period: Period, seen: set<int>, i: nat): set<int>
    requires i <= |o|
  {
    if i == 0 then seen else SeenBefore(o[1..], period, seen + {Key(period, o[0])}, i - 1)
  }

  lemma KeysOfFirst(o: seq<Manifest>, period: Period, i: nat)
    requires 0 < i <= |o|
    ensures KeysOf(o[..i], period) == {Key(period, o[0])} + KeysOf(o[1..][..i - 1], period)
  {
    assert o[..i] == [o[0]] + o[1..][..i - 1];
  }

  lemma {:induction false} SeenBeforeIsPrefix(o: seq<Manifest>, period: Period, seen: set<int>, i: nat)
    requires i <= |o|
    ensures SeenBefore(o, period, seen, i) == seen + KeysOf(o[..i], period)
    ensures |SeenBefore(o, period, seen, i)| >= |seen|
  {
    if i > 0 {
      SeenBeforeIsPrefix(o[1..], period, seen + {Key(period, o[0])}, i - 1);
      Bigger(seen, {Key(period, o[0])});
      KeysOfFirst(o, period, i);
    }
  }

  ghost predicate OnlyAt(o: seq<Manifest>, i: nat)
    requires i < |o|
  {
    forall j | 0 <= j < |o| && j != i :: o[j].id != o[i].id
  }

  lemma OnlyInTail(o: seq<Manifest>, i: nat)
    requires 0 < i < |o| && OnlyAt(o, i)
    ensures OnlyAt(o[1..], i - 1) && o[1..][i - 1] == o[i] && o[0].id != o[i].id
  {
    assert forall j | 0 <= j < |o[1..]| && j != i - 1 :: o[1..][j] == o[j + 1];
  }

  // Whether an id other than the first is kept is decided by the rest of the listing.
  lemma KeepByTail(o: seq<Manifest>, period: Period, seen: set<int>, limit: int, id: string)
    requires o != [] && o[0].id != id && |seen| < limit
    ensures id in KeepBy(o, period, seen, limit) <==> id in KeepBy(o[1..], period, seen + {Key(period, o[0])}, limit)
  {
    assert Key(period, o[0]) in seen ==> seen + {Key(period, o[0])} == seen;
  }

  lemma {:induction false} KeepByScan(o: seq<Manifest>, period: Period, seen: set<int>, limit: int, i: nat)
    requires i < |o| && OnlyAt(o, i)
    ensures o[i].id in KeepBy(o, period, seen, limit) <==>
            Key(period, o[i]) !in SeenBefore(o, period, seen, i) && |SeenBefore(o, period, seen, i)| < limit
  {
    if i == 0 {
      KeepByFirst(o, period, seen, limit);
    } else {
      OnlyInTail(o, i);
      if |seen| >= limit {
        SeenBeforeIsPrefix(o, period, seen, i);
        KeepByFull(o, period, seen, limit);
      } else {
        KeepByScan(o[1..], period, seen + {Key(period, o[0])}, limit, i - 1);
        KeepByTail(o, period, seen, limit, o[i].id);
      }
    }
  }

  lemma KeepByFirst(o: seq<Manifest>, period: Period, seen: set<int>, limit: int)
    requires o != [] && OnlyAt(o, 0)
    ensures o[0].id in KeepBy(o, period, seen, limit) <==> Key(period, o[0]) !in seen && |seen| < limit
  {
    KeepByMembers(o[1..], period, seen, limit);
    assert forall m | m in o[1..] :: m.id != o[0].id;
  }

  lemma KeyMonotone(period: Period, older: Manifest, newer: Manifest)
    requires older.createdAt <= newer.createdAt
    ensures Key(period, older) <= Key(period, newer)
  {
  }

  // Before a period's first entry, a newest-first listing has exactly the more recent periods.
  lemma NewerKeysFirst(o: seq<Manifest>, period: Period, i: nat)
    requires i < |o| && Descending(o)
    requires forall j | 0 <= j < i :: Key(period, o[j]) != Key(period, o[i])
    ensures KeysOf(o[..i], period) == NewerKeys(o, period, Key(period, o[i]))
  {
    forall m | m in o[..i] ensures m in o && Key(period, m) > Key(period, o[i]) {
      var j :| 0 <= j < i && o[j] == m;
      KeyMonotone(period, o[i], o[j]);
    }
    forall m | m in o && Key(period, m) > Key(period, o[i]) ensures m in o[..i] {
      var j :| 0 <= j < |o| && o[j] == m;
      if j < i {
        assert o[..i][j] == m;
      } else {
        KeyMonotone(period, o[j], o[i]);
      }
    }
  }

  // The pass decides exactly by period leadership and recency.
  lemma KeepByExactly(o: seq<Manifest>, period: Period, limit: int, i: nat)
    requires i < |o| && UniqueIds(o) && Descending(o)
    ensures o[i].id in KeepBy(o, period, {}, limit) <==> HoldsSlot(o, period, limit, i)
  {
    KeepByScan(o, period, {}, limit, i);
    SeenBeforeIsPrefix(o, period, {}, i);
    var before := KeysOf(o[..i], period);
    assert {} + before == before;
    if j :| 0 <= j < i && Key(period, o[j]) == Key(period, o[i]) {
      assert o[..i][j] == o[j];
    } else {
      NewerKeysFirst(o, period, i);
    }
  }

  lemma {:induction false} KeepByBound(o: seq<Manifest>, period: Period, seen: set<int>, limit: int)
    requires |seen| <= limit
    ensures |KeepBy(o, period, seen, limit)| <= limit - |seen|
  {
    if o != [] {
      var key := Key(period, o[0]);
      var next := if |seen| < limit && key !in seen then seen + {key} else seen;
      KeepByBound(o[1..], period, next, limit);
    }
  }

  // ---------------------------------------------------------------------------
  // What a whole plan retains
  // ---------------------------------------------------------------------------

  lemma InListing(ms: seq<Manifest>, tenant: string)
    ensures forall m :: m in CompleteOf(NewestFirst(ms), tenant) <==> m in ms && m.tenant == tenant && m.complete
    ensures IdSet(CompleteOf(NewestFirst(ms), tenant)) <= IdSet(ms)
  {
    CompleteMembers(NewestFirst(ms), tenant);
    NewestFirstMembers(ms);
  }

  lemma ListingRestrict(ms: seq<Manifest>, ids: set<string>, tenant: string)
    ensures CompleteOf(NewestFirst(Restrict(ms, ids)), tenant) == Restrict(CompleteOf(NewestFirst(ms), tenant), ids)
  {
    NewestFirstRestrict(ms, ids);
    CompleteRestrict(NewestFirst(ms), ids, tenant);
  }

  lemma TenantKeepMembers(o: seq<Manifest>, w: Windows)
    ensures TenantKeep(o, w) <= IdSet(o)
  {
    KeepByMembers(o, Ever, {}, 1);
    KeepByMembers(o, Day, {}, w.daily);
    KeepByMembers(o, Week, {}, w.weekly);
  }

  lemma TenantIndependent(o: seq<Manifest>, w: Windows, ids: set<string>)
    requires TenantKeep(o, w) <= ids
    ensures TenantKeep(Restrict(o, ids), w) == TenantKeep(o, w)
  {
    KeepByIndependent(o, Ever, {}, 1, ids);
    KeepByIndependent(o, Day, {}, w.daily, ids);
    KeepByIndependent(o, Week, {}, w.weekly, ids);
  }

  lemma KeptOverMembers(ms: seq<Manifest>, w: Windows)
    ensures KeptOver(NewestFirst(ms), TenantsOf(ms), w) <= IdSet(ms)
  {
    forall t | t in TenantsOf(ms) ensures TenantKeep(CompleteOf(NewestFirst(ms), t), w) <= IdSet(ms) {
      TenantKeepMembers(CompleteOf(NewestFirst(ms), t), w);
      InListing(ms, t);
    }
  }

  lemma KeptOverIndependent(ms: seq<Manifest>, w: Windows, ids: set<string>)
    requires KeptOver(NewestFirst(ms), TenantsOf(ms), w) <= ids
    ensures var sub := Restrict(ms, ids);
            KeptOver(NewestFirst(sub), TenantsOf(sub), w) == KeptOver(NewestFirst(ms), TenantsOf(ms), w)
  {
    var sub := Restrict(ms, ids);
    RestrictMembers(ms, ids);
    forall t | t in TenantsOf(ms)
      ensures TenantKeep(CompleteOf(NewestFirst(sub), t), w) == TenantKeep(CompleteOf(NewestFirst(ms), t), w)
    {
      ListingRestrict(ms, ids, t);
      TenantIndependent(CompleteOf(NewestFirst(ms), t), w, ids);
    }
    forall t, id | t in TenantsOf(ms) && id in TenantKeep(CompleteOf(NewestFirst(sub), t), w) ensures t in TenantsOf(sub) {
      TenantKeepMembers(CompleteOf(NewestFirst(sub), t), w);
      InListing(sub, t);
      var m :| m in CompleteOf(NewestFirst(sub), t) && m.id == id;
    }
  }

  // Choosing again from a set that still holds every retained backup changes nothing.
  lemma PathIndependence(ms: seq<Manifest>, w: Windows, pins: seq<Pin>, ids: set<string>)
    requires Retained(ms, w, pins) * IdSet(ms) <= ids
    ensures Retained(Restrict(ms, ids), w, pins) == Retained(ms, w, pins)
    ensures Prune(Restrict(ms, ids), w, pins) == Prune(ms, w, pins)
  {
    var sub, r := Restrict(ms, ids), Retained(ms, w, pins);
    KeptOverMembers(ms, w);
    KeptOverIndependent(ms, w, ids);
    RestrictMembers(ms, ids);
    IncompleteMembers(ms);
    IncompleteMembers(sub);
    forall m | m in IncompleteOf(ms) ensures m in IncompleteOf(sub) {
      assert m.id in r && m.id in IdSet(ms);
    }
    assert IdSet(IncompleteOf(sub)) == IdSet(IncompleteOf(ms));
    RestrictTwice(ms, ids, r);
    forall m | m in ms ensures m.id in ids * r <==> m.id in r {
      assert m.id in IdSet(ms);
    }
    RestrictAgree(ms, ids * r, r);
  }

  lemma TenantHeritage(o: seq<Manifest>, w: Windows, ids: set<string>)
    ensures TenantKeep(o, w) * ids <= TenantKeep(Restrict(o, ids), w)
  {
    KeepByHeritage(o, Ever, {}, 1, ids);
    KeepByHeritage(o, Day, {}, w.daily, ids);
    KeepByHeritage(o, Week, {}, w.weekly, ids);
  }

  lemma IncompleteHeritage(ms: seq<Manifest>, ids: set<string>, id: string)
    requires id in IdSet(IncompleteOf(ms)) && id in ids
    ensures id in IdSet(IncompleteOf(Restrict(ms, ids)))
  {
    RestrictMembers(ms, ids);
    IncompleteMembers(ms);
    IncompleteMembers(Restrict(ms, ids));
    var m :| m in IncompleteOf(ms) && m.id == id;
    assert m in IncompleteOf(Restrict(ms, ids));
  }

  lemma KeptHeritage(ms: seq<Manifest>, w: Windows, ids: set<string>, id: string, t: string)
    requires t in TenantsOf(ms) && id in TenantKeep(CompleteOf(NewestFirst(ms), t), w) && id in ids
    ensures t in TenantsOf(Restrict(ms, ids)) && id in TenantKeep(CompleteOf(NewestFirst(Restrict(ms, ids)), t), w)
  {
    var o := CompleteOf(NewestFirst(ms), t);
    RestrictMembers(ms, ids);
    TenantKeepMembers(o, w);
    InListing(ms, t);
    var m :| m in o && m.id == id;
    assert m in Restrict(ms, ids);
    ListingRestrict(ms, ids, t);
    TenantHeritage(o, w, ids);
  }

  // What a larger inventory retains, a smaller one holding it retains too.
  lemma Heritage(ms: seq<Manifest>, w: Windows, pins: seq<Pin>, ids: set<string>)
    ensures Retained(ms, w, pins) * ids <= Retained(Restrict(ms, ids), w, pins)
  {
    forall id | id in Retained(ms, w, pins) * ids ensures id in Retained(Restrict(ms, ids), w, pins) {
      if id in IdSet(IncompleteOf(ms)) {
        IncompleteHeritage(ms, ids, id);
      } else if id !in PinIds(pins) {
        var t :| t in TenantsOf(ms) && id in TenantKeep(CompleteOf(NewestFirst(ms), t), w);
        KeptHeritage(ms, w, ids, id, t);
      }
    }
  }

  // Planning twice is planning once.
  lemma PruneIdempotent(ms: seq<Manifest>, w: Windows, pins: seq<Pin>)
    ensures Prune(Prune(ms, w, pins), w, pins) == Prune(ms, w, pins)
  {
    PathIndependence(ms, w, pins, Retained(ms, w, pins));
  }

  // ---------------------------------------------------------------------------
  // Nightly runs
  // ---------------------------------------------------------------------------

  // One night: new backups arrive, a plan is applied, and some deletions may fail.
  datatype Night = Night(arrivals: seq<Manifest>, undeleted: set<string>)

  ghost function Inventory(nights: seq<Night>, w: Windows, pins: seq<Pin>): seq<Manifest> {
    if nights == [] then []
    else
      var last := nights[|nights| - 1];
      var before := Inventory(nights[..|nights| - 1], w, pins) + last.arrivals;
      Restrict(before, Retained(before, w, pins) + last.undeleted)
  }

  ghost function History(nights: seq<Night>): seq<Manifest> {
    if nights == [] then []
    else History(nights[..|nights| - 1]) + nights[|nights| - 1].arrivals
  }

  lemma {:induction false} InventoryIsRestriction(nights: seq<Night>, w: Windows,
          pins: seq<Pin>) returns (ids: set<string>)
    requires UniqueIds(History(nights))
    ensures Inventory(nights, w, pins) == Restrict(History(nights), ids)
    ensures Retained(History(nights), w, pins) * IdSet(History(nights)) <= ids
    ensures (nights != [] && nights[|nights| - 1].undeleted == {}) ==>
            Inventory(nights, w, pins) == Prune(History(nights), w, pins)
  {
    if nights == [] {
      ids := {};
    } else {
      var n := |nights| - 1;
      var past, arrivals := History(nights[..n]), nights[n].arrivals;
      var all := past + arrivals;
      UniqueSplit(past, arrivals);
      var was := InventoryIsRestriction(nights[..n], w, pins);
      var present := was * IdSet(past) + IdSet(arrivals);
      RestrictConcat(past, arrivals, present);
      forall m | m in past ensures m.id in present <==> m.id in was {
        assert m.id in IdSet(past);
      }
      RestrictAgree(past, present, was);
      RestrictAll(arrivals, present);
      var before := Inventory(nights[..n], w, pins) + arrivals;
      assert before == Restrict(all, present);
      RetainedStaysPresent(past, arrivals, w, pins, was);
      PathIndependence(all, w, pins, present);
      var kept := Retained(all, w, pins) + nights[n].undeleted;
      ids := present * kept;
      RestrictTwice(all, present, kept);
      if nights[n].undeleted == {} {
        assert kept == Retained(before, w, pins);
      }
    }
  }

  lemma RetainedStaysPresent(past: seq<Manifest>, arrivals: seq<Manifest>, w: Windows, pins: seq<Pin>,
          was: set<string>)
    requires UniqueIds(past + arrivals)
    requires Retained(past, w, pins) * IdSet(past) <= was
    ensures Retained(past + arrivals, w, pins) * IdSet(past + arrivals) <= was * IdSet(past) + IdSet(arrivals)
  {
    var all := past + arrivals;
    UniqueSplit(past, arrivals);
    RestrictConcat(past, arrivals, IdSet(past));
    RestrictAll(past, IdSet(past));
    RestrictNone(arrivals, IdSet(past));
    assert Restrict(all, IdSet(past)) == past;
    Heritage(all, w, pins, IdSet(past));
    assert IdSet(all) == IdSet(past) + IdSet(arrivals);
  }

  // Pruning night after night, with any arrivals and any failed deletions, always leaves an
  // inventory whose plan equals the one plan over everything that ever arrived.
  lemma NightlyEqualsBatch(nights: seq<Night>, w: Windows, pins: seq<Pin>)
    requires UniqueIds(History(nights))
    ensures Retained(Inventory(nights, w, pins), w, pins) == Retained(History(nights), w, pins)
    ensures Prune(Inventory(nights, w, pins), w, pins) == Prune(History(nights), w, pins)
    ensures (nights != [] && nights[|nights| - 1].undeleted == {}) ==>
            Inventory(nights, w, pins) == Prune(History(nights), w, pins)
  {
    var ids := InventoryIsRestriction(nights, w, pins);
    PathIndependence(History(nights), w, pins, ids);
  }

  // ---------------------------------------------------------------------------
  // Pins that come and go
  // ---------------------------------------------------------------------------

  datatype PinnedNight = PinnedNight(arrivals: seq<Manifest>, undeleted: set<string>, pins: seq<Pin>)

  ghost function PinnedInventory(nights: seq<PinnedNight>, w: Windows): seq<Manifest> {
    if nights == [] then []
    else
      var last := nights[|nights| - 1];
      var before := PinnedInventory(nights[..|nights| - 1], w) + last.arrivals;
      Restrict(before, Retained(before, w, last.pins) + last.undeleted)
  }

  // What a night's pins keep might as well have failed to be deleted.
  function Unpinned(nights: seq<PinnedNight>): seq<Night> {
    if nights == [] then []
    else
      var last := nights[|nights| - 1];
      Unpinned(nights[..|nights| - 1]) + [Night(last.arrivals, last.undeleted + PinIds(last.pins))]
  }

  lemma {:induction false} PinsAreFailures(nights: seq<PinnedNight>, w: Windows)
    ensures PinnedInventory(nights, w) == Inventory(Unpinned(nights), w, [])
    decreases |nights|
  {
    if nights != [] {
      var n := |nights| - 1;
      var last := nights[n];
      PinsAreFailures(nights[..n], w);
      var before := PinnedInventory(nights[..n], w) + last.arrivals;
      assert Unpinned(nights)[..|Unpinned(nights)| - 1] == Unpinned(nights[..n]);
      assert Retained(before, w, last.pins) + last.undeleted == Retained(before, w, []) + (last.undeleted + PinIds(last.pins));
    }
  }

  // Whatever was pinned when: the next plan makes of what is left what it would make of the whole
  // history exactly if every backup it pins is still there. The days, the weeks and the newest
  // recovery points never depend on earlier pins.
  lemma ChangingPinsExactly(nights: seq<PinnedNight>, w: Windows, pins: seq<Pin>)
    requires UniqueIds(History(Unpinned(nights)))
    ensures var all, left := History(Unpinned(nights)), PinnedInventory(nights, w);
            && Retained(left, w, []) == Retained(all, w, [])
            && (Prune(left, w, pins) == Prune(all, w, pins) <==> forall m | m in all && m.id in PinIds(pins) :: m in left)
  {
    var all, left := History(Unpinned(nights)), PinnedInventory(nights, w);
    PinsAreFailures(nights, w);
    NightlyEqualsBatch(Unpinned(nights), w, []);
    var ids := InventoryIsRestriction(Unpinned(nights), w, []);
    RestrictMembers(all, ids);
    RestrictMembers(all, Retained(all, w, pins));
    RestrictMembers(left, Retained(left, w, pins));
    if forall m | m in all && m.id in PinIds(pins) :: m in left {
      PinnedArePresent(all, w, pins, ids);
      PathIndependence(all, w, pins, ids);
    }
  }

  lemma PinnedArePresent(all: seq<Manifest>, w: Windows, pins: seq<Pin>, ids: set<string>)
    requires Retained(all, w, []) * IdSet(all) <= ids
    requires forall m | m in all && m.id in PinIds(pins) :: m.id in ids
    ensures Retained(all, w, pins) * IdSet(all) <= ids
  {
  }

  // ---------------------------------------------------------------------------
  // The exact specification of a plan
  // ---------------------------------------------------------------------------

  lemma UniqueCons(ms: seq<Manifest>)
    requires ms != []
    ensures UniqueIds(ms) <==> ms[0].id !in IdSet(ms[1..]) && UniqueIds(ms[1..])
  {
    var rest := ms[1..];
    assert forall j | 0 <= j < |rest| :: rest[j] == ms[j + 1];
    if UniqueIds(ms) {
      forall m | m in rest ensures m.id != ms[0].id {
        var j :| 0 <= j < |rest| && rest[j] == m;
        assert ms[0].id != ms[j + 1].id;
      }
    } else if ms[0].id !in IdSet(rest) {
      var i, j :| 0 <= i < j < |ms| && ms[i].id == ms[j].id;
      assert rest[j - 1] in rest;
      assert rest[j - 1].id in IdSet(rest);
      assert rest[i - 1].id == rest[j - 1].id;
    }
  }

  lemma {:induction false} IdSetSize(ms: seq<Manifest>)
    ensures |IdSet(ms)| <= |ms|
    ensures |IdSet(ms)| == |ms| <==> UniqueIds(ms)
  {
    if ms != [] {
      IdSetSize(ms[1..]);
      UniqueCons(ms);
      assert ms == [ms[0]] + ms[1..];
      assert IdSet(ms) == {ms[0].id} + IdSet(ms[1..]);
    }
  }

  lemma UniquePermutation(ms: seq<Manifest>, others: seq<Manifest>)
    requires multiset(ms) == multiset(others) && UniqueIds(ms)
    ensures UniqueIds(others)
  {
    IdSetSize(ms);
    IdSetSize(others);
    forall m ensures m in ms <==> m in others {
      assert m in multiset(ms) <==> m in multiset(others);
    }
    assert IdSet(ms) == IdSet(others);
    assert |multiset(ms)| == |ms| && |multiset(others)| == |others|;
  }

  lemma CompleteDescending(ordered: seq<Manifest>, tenant: string)
    requires Descending(ordered)
    ensures Descending(CompleteOf(ordered, tenant))
  {
    if ordered != [] {
      CompleteDescending(ordered[1..], tenant);
      CompleteMembers(ordered[1..], tenant);
    }
  }

  lemma CompleteUnique(ordered: seq<Manifest>, tenant: string)
    requires UniqueIds(ordered)
    ensures UniqueIds(CompleteOf(ordered, tenant))
  {
    if ordered != [] {
      CompleteUnique(ordered[1..], tenant);
      CompleteMembers(ordered[1..], tenant);
    }
  }

  lemma EntryTenant(ms: seq<Manifest>, w: Windows, m: Manifest, t: string)
    requires UniqueIds(ms) && m in ms && m.id in TenantKeep(CompleteOf(NewestFirst(ms), t), w)
    ensures m.tenant == t && m.complete
  {
    TenantKeepMembers(CompleteOf(NewestFirst(ms), t), w);
    InListing(ms, t);
    var n :| n in CompleteOf(NewestFirst(ms), t) && n.id == m.id;
    var i :| 0 <= i < |ms| && ms[i] == m;
    var j :| 0 <= j < |ms| && ms[j] == n;
    assert i == j;
  }

  // Entry i of one tenant's complete backups survives exactly when it is pinned, the newest, or
  // holds a slot of a window, told by the keys of days and weeks.
  lemma RetainedByKeys(ms: seq<Manifest>, w: Windows, pins: seq<Pin>, tenant: string, i: nat)
    requires UniqueIds(ms) && i < |CompleteOf(NewestFirst(ms), tenant)|
    ensures var o := CompleteOf(NewestFirst(ms), tenant);
            o[i].id in Retained(ms, w, pins) <==>
            || o[i].id in PinIds(pins)
            || i == 0
            || HoldsSlot(o, Day, w.daily, i)
            || HoldsSlot(o, Week, w.weekly, i)
  {
    var o := CompleteOf(NewestFirst(ms), tenant);
    NewestFirstSorts(ms);
    UniquePermutation(ms, NewestFirst(ms));
    CompleteDescending(NewestFirst(ms), tenant);
    CompleteUnique(NewestFirst(ms), tenant);
    KeepByExactly(o, Ever, 1, i);
    KeepByExactly(o, Day, w.daily, i);
    KeepByExactly(o, Week, w.weekly, i);
    assert NewerKeys(o, Ever, 0) == {};
    if i > 0 {
      assert Key(Ever, o[0]) == Key(Ever, o[i]);
    }
    InListing(ms, tenant);
    var m := o[i];
    assert m in o;
    IncompleteMembers(ms);
    assert m.id !in IdSet(IncompleteOf(ms)) by {
      assert forall n | n in IncompleteOf(ms) :: n.id != m.id by {
        forall n | n in IncompleteOf(ms) ensures n.id != m.id {
          var j :| 0 <= j < |ms| && ms[j] == n;
          var k :| 0 <= k < |ms| && ms[k] == m;
          assert j != k;
        }
      }
    }
    forall t | t in TenantsOf(ms) && m.id in TenantKeep(CompleteOf(NewestFirst(ms), t), w) ensures t == tenant {
      EntryTenant(ms, w, m, t);
    }
    assert m.id in Retained(ms, w, pins) <==> m.id in PinIds(pins) || m.id in TenantKeep(o, w);
  }

  // A multiple of `span` lies after one instant and not after the other: days begin at the
  // multiples of a day, and weeks, which begin on Mondays, at the multiples of seven.
  ghost predicate Divided(span: int, older: int, newer: int)
    requires span > 0
  {
    exists z :: older < z <= newer && z % span == 0
  }

  lemma DaysDivide(x: int, y: int)
    requires x <= y
    ensures x / 86_400_000_000 == y / 86_400_000_000 <==> !Divided(86_400_000_000, x, y)
  {
    var z := y / 86_400_000_000 * 86_400_000_000;
    if x / 86_400_000_000 != y / 86_400_000_000 {
      assert x < z <= y && z % 86_400_000_000 == 0;
    } else {
      forall u | x < u <= y ensures u % 86_400_000_000 != 0 {}
    }
  }

  lemma WeeksDivide(x: int, y: int)
    requires x <= y
    ensures x / 604_800_000_000 == y / 604_800_000_000 <==> !Divided(604_800_000_000, x, y)
  {
    var z := y / 604_800_000_000 * 604_800_000_000;
    if x / 604_800_000_000 != y / 604_800_000_000 {
      assert x < z <= y && z % 604_800_000_000 == 0;
    } else {
      forall u | x < u <= y ensures u % 604_800_000_000 != 0 {}
    }
  }

  lemma DayIsDivision(older: Manifest, newer: Manifest)
    requires older.createdAt <= newer.createdAt
    ensures Key(Day, older) == Key(Day, newer) <==> !Divided(86_400_000_000, older.createdAt, newer.createdAt)
  {
    DaysDivide(older.createdAt, newer.createdAt);
  }

  lemma WeekIsDivision(older: Manifest, newer: Manifest)
    requires older.createdAt <= newer.createdAt
    ensures Key(Week, older) == Key(Week, newer) <==> !Divided(604_800_000_000, older.createdAt, newer.createdAt)
  {
    WeekIsSevenDays(older.createdAt);
    WeekIsSevenDays(newer.createdAt);
    WeeksDivide(older.createdAt, newer.createdAt);
  }

  lemma WeekIsSevenDays(x: int)
    ensures x / 86_400_000_000 / 7 == x / 604_800_000_000
  {
  }

  // The newest of its day or week.
  ghost predicate Leads(o: seq<Manifest>, span: int, i: nat)
    requires span > 0 && i < |o|
  {
    forall j | 0 <= j < i :: Divided(span, o[i].createdAt, o[j].createdAt)
  }

  ghost function Leaders(o: seq<Manifest>, span: int, i: nat): set<int>
    requires span > 0 && i <= |o|
  {
    set j | 0 <= j < i && Leads(o, span, j)
  }

  // Entry i leads its day or week, and fewer than `limit` more recent ones have an entry.
  ghost predicate FillsSlot(o: seq<Manifest>, span: int, limit: int, i: nat)
    requires span > 0 && i < |o|
  {
    Leads(o, span, i) && |Leaders(o, span, i)| < limit
  }

  ghost predicate Spans(period: Period, span: int) {
    (period == Day && span == 86_400_000_000) || (period == Week && span == 604_800_000_000)
  }

  lemma SpanDivides(period: Period, span: int, older: Manifest, newer: Manifest)
    requires Spans(period, span) && older.createdAt <= newer.createdAt
    ensures Key(period, older) == Key(period, newer) <==> !Divided(span, older.createdAt, newer.createdAt)
  {
    if period == Day { DayIsDivision(older, newer); } else { WeekIsDivision(older, newer); }
  }

  lemma LeadsByKey(o: seq<Manifest>, period: Period, span: int, i: nat)
    requires Spans(period, span) && Descending(o) && i < |o|
    ensures Leads(o, span, i) <==> forall j | 0 <= j < i :: Key(period, o[j]) != Key(period, o[i])
  {
    forall j | 0 <= j < i ensures Divided(span, o[i].createdAt, o[j].createdAt) <==> Key(period, o[j]) != Key(period, o[i]) {
      SpanDivides(period, span, o[i], o[j]);
    }
  }

  lemma LeadersNext(o: seq<Manifest>, span: int, i: nat)
    requires span > 0 && i < |o|
    ensures Leaders(o, span, i + 1) == Leaders(o, span, i) + if Leads(o, span, i) then {i} else {}
    ensures i !in Leaders(o, span, i)
  {
  }

  lemma KeysNext(o: seq<Manifest>, period: Period, i: nat)
    requires i < |o|
    ensures KeysOf(o[..i + 1], period) == KeysOf(o[..i], period) + {Key(period, o[i])}
  {
    assert o[..i + 1] == o[..i] + [o[i]];
  }

  lemma CountsAlike(a: set<int>, x: int, fresh': bool, b: set<int>, y: int)
    requires |a| == |b| && x !in a && (fresh' <==> y !in b)
    ensures |a + if fresh' then {x} else {}| == |b + {y}|
  {
    if !fresh' { assert b + {y} == b && a + {} == a; }
  }

  // There are as many leaders as periods.
  lemma {:induction false} LeadersCount(o: seq<Manifest>, period: Period, span: int, i: nat)
    requires Spans(period, span) && Descending(o) && i <= |o|
    ensures |Leaders(o, span, i)| == |KeysOf(o[..i], period)|
  {
    if i == 0 {
      assert Leaders(o, span, 0) == {} && KeysOf(o[..0], period) == {};
    } else {
      var n := i - 1;
      LeadersCount(o, period, span, n);
      LeadersNext(o, span, n);
      KeysNext(o, period, n);
      LeadsIfNew(o, period, span, n);
      CountsAlike(Leaders(o, span, n), n, Leads(o, span, n), KeysOf(o[..n], period), Key(period, o[n]));
    }
  }

  lemma LeadsIfNew(o: seq<Manifest>, period: Period, span: int, i: nat)
    requires Spans(period, span) && Descending(o) && i < |o|
    ensures Leads(o, span, i) <==> Key(period, o[i]) !in KeysOf(o[..i], period)
  {
    LeadsByKey(o, period, span, i);
    EarlierKey(o, period, i);
  }

  lemma EarlierKey(o: seq<Manifest>, period: Period, i: nat)
    requires i < |o|
    ensures Key(period, o[i]) in KeysOf(o[..i], period) <==> exists j :: 0 <= j < i && Key(period, o[j]) == Key(period, o[i])
  {
    if j :| 0 <= j < i && Key(period, o[j]) == Key(period, o[i]) {
      assert o[..i][j] == o[j];
    }
  }

  lemma SlotByKeys(o: seq<Manifest>, period: Period, span: int, limit: int, i: nat)
    requires Spans(period, span) && Descending(o) && i < |o|
    ensures HoldsSlot(o, period, limit, i) <==> FillsSlot(o, span, limit, i)
  {
    LeadsByKey(o, period, span, i);
    if Leads(o, span, i) {
      NewerKeysFirst(o, period, i);
      LeadersCount(o, period, span, i);
    }
  }

  // Entry i of one tenant's complete backups, newest first, survives exactly when it is pinned,
  // the newest, or the newest of one of the most recent days or weeks of its window. A day is
  // 86,400,000,000 microseconds and a week seven days from a Monday.
  lemma RetainedExactly(ms: seq<Manifest>, w: Windows, pins: seq<Pin>, tenant: string, i: nat)
    requires UniqueIds(ms) && i < |CompleteOf(NewestFirst(ms), tenant)|
    ensures var o := CompleteOf(NewestFirst(ms), tenant);
            o[i].id in Retained(ms, w, pins) <==>
            || (exists pin :: pin in pins && pin.backupId == o[i].id)
            || i == 0
            || FillsSlot(o, 86_400_000_000, w.daily, i)
            || FillsSlot(o, 604_800_000_000, w.weekly, i)
    ensures var o := CompleteOf(NewestFirst(ms), tenant);
            && (forall m :: m in o <==> m in ms && m.tenant == tenant && m.complete)
            && (forall j, k | 0 <= j < k < |o| :: o[j].createdAt >= o[k].createdAt && o[j].id != o[k].id)
  {
    var o := CompleteOf(NewestFirst(ms), tenant);
    RetainedByKeys(ms, w, pins, tenant, i);
    NewestFirstSorts(ms);
    UniquePermutation(ms, NewestFirst(ms));
    CompleteDescending(NewestFirst(ms), tenant);
    CompleteUnique(NewestFirst(ms), tenant);
    InListing(ms, tenant);
    SlotByKeys(o, Day, 86_400_000_000, w.daily, i);
    SlotByKeys(o, Week, 604_800_000_000, w.weekly, i);
  }

  // An incomplete backup is always kept.
  lemma IncompleteIsRetained(ms: seq<Manifest>, w: Windows, pins: seq<Pin>, m: Manifest)
    requires m in ms && !m.complete
    ensures m.id in Retained(ms, w, pins)
  {
    IncompleteMembers(ms);
  }

  lemma KeepByFull(o: seq<Manifest>, period: Period, seen: set<int>, limit: int)
    requires limit <= |seen|
    ensures KeepBy(o, period, seen, limit) == {}
  {
  }

  lemma NewestSlot(o: seq<Manifest>)
    ensures KeepBy(o, Ever, {}, 1) == if o == [] then {} else {o[0].id}
  {
    if o != [] {
      assert {} + {0} == {0};
      KeepByFull(o[1..], Ever, {0}, 1);
    }
  }

  // The newest backup takes a slot of both windows, so the windows never add up in full.
  lemma TenantKeepBound(o: seq<Manifest>, w: Windows)
    requires w.daily >= 0 && w.weekly >= 0
    ensures |TenantKeep(o, w)| <= if w.daily > 0 && w.weekly > 0 then w.daily + w.weekly - 1
                                  else if w.daily + w.weekly > 0 then w.daily + w.weekly else 1
  {
    KeepByBound(o, Day, {}, w.daily);
    KeepByBound(o, Week, {}, w.weekly);
    NewestSlot(o);
    var e, d, k := KeepBy(o, Ever, {}, 1), KeepBy(o, Day, {}, w.daily), KeepBy(o, Week, {}, w.weekly);
    if o != [] {
      var x := o[0].id;
      if w.daily > 0 && w.weekly > 0 {
        assert x in d && x in k;
        assert TenantKeep(o, w) == d + (k - {x});
      } else if w.daily + w.weekly > 0 {
        assert TenantKeep(o, w) == d + k;
      }
    }
  }

  // ---------------------------------------------------------------------------
  // The planner and its execution
  // ---------------------------------------------------------------------------

  function Exclude(ms: seq<Manifest>, ids: set<string>): seq<Manifest> {
    if ms == [] then []
    else (if ms[0].id in ids then [] else [ms[0]]) + Exclude(ms[1..], ids)
  }

  function WarningsOf(unsafe: seq<Manifest>, pins: seq<Pin>): (warnings: seq<Warning>)
    ensures |warnings| == |unsafe| + |pins|
    ensures forall i | 0 <= i < |unsafe| :: warnings[i] == IncompleteRetained(unsafe[i].id)
    ensures forall i | 0 <= i < |pins| :: warnings[|unsafe| + i] == PinnedBy(pins[i].reason, pins[i].backupId)
  {
    if unsafe != [] then [IncompleteRetained(unsafe[0].id)] + WarningsOf(unsafe[1..], pins)
    else if pins != [] then [PinnedBy(pins[0].reason, pins[0].backupId)] + WarningsOf([], pins[1..])
    else []
  }

  lemma IdsMembers(ms: seq<Manifest>)
    ensures forall id :: id in Ids(ms) <==> id in IdSet(ms)
  {
    if ms != [] {
      IdsMembers(ms[1..]);
      assert ms == [ms[0]] + ms[1..];
      assert IdSet(ms) == {ms[0].id} + IdSet(ms[1..]);
    }
  }

  lemma ExcludeMembers(ms: seq<Manifest>, ids: set<string>)
    ensures forall m :: m in Exclude(ms, ids) <==> m in ms && m.id !in ids
  {
  }

  lemma IdsOfCons(m: Manifest, ms: seq<Manifest>)
    ensures multiset(Ids([m] + ms)) == multiset{m.id} + multiset(Ids(ms))
  {
    assert ([m] + ms)[1..] == ms;
  }

  lemma ExcludeCons(m: Manifest, ms: seq<Manifest>, ids: set<string>)
    ensures Exclude([m] + ms, ids) == (if m.id in ids then [] else [m]) + Exclude(ms, ids)
  {
    assert ([m] + ms)[1..] == ms;
  }

  lemma SidesOfCons(m: Manifest, ms: seq<Manifest>, keep: set<string>)
    ensures multiset(Ids(Restrict([m] + ms, keep))) + multiset(Ids(Exclude([m] + ms, keep)))
         == multiset{m.id} + (multiset(Ids(Restrict(ms, keep))) + multiset(Ids(Exclude(ms, keep))))
  {
    var k, d := Restrict(ms, keep), Exclude(ms, keep);
    RestrictCons(m, ms, keep);
    ExcludeCons(m, ms, keep);
    if m.id in keep {
      IdsOfCons(m, k);
      assert [] + d == d;
    } else {
      IdsOfCons(m, d);
      assert [] + k == k;
    }
  }

  // Every listed backup goes to exactly one side of the plan.
  lemma {:induction false} PlanPartitions(ordered: seq<Manifest>, keep: set<string>)
    ensures multiset(Ids(Restrict(ordered, keep))) + multiset(Ids(Exclude(ordered, keep))) == multiset(Ids(ordered))
  {
    if ordered != [] {
      assert ordered == [ordered[0]] + ordered[1..];
      PlanPartitions(ordered[1..], keep);
      SidesOfCons(ordered[0], ordered[1..], keep);
      IdsOfCons(ordered[0], ordered[1..]);
    }
  }

  method PlanRetention(ms: seq<Manifest>, w: Windows, pins: seq<Pin>) returns (r: Result<Plan, PlanError>)
    ensures r.Ok? <==> w.daily >= 0 && w.weekly >= 0 && UniqueIds(ms)
    ensures r.Err? ==> r.error == if w.daily < 0 || w.weekly < 0 then NegativeWindow else DuplicateBackupId
    ensures r.Ok? ==>
      && r.value.keep == Ids(Restrict(NewestFirst(ms), Retained(ms, w, pins)))
      && r.value.delete == Ids(Exclude(NewestFirst(ms), Retained(ms, w, pins)))
      && r.value.pins == pins
      && r.value.warnings == WarningsOf(IncompleteOf(NewestFirst(ms)), pins)
    ensures r.Ok? ==> forall id | id in r.value.delete :: id !in r.value.keep && id !in PinIds(pins)
  {
    if w.daily < 0 || w.weekly < 0 {
      return Err(NegativeWindow);
    }
    IdSetSize(ms);
    if |IdSet(ms)| != |ms| {
      return Err(DuplicateBackupId);
    }
    var ordered := NewestFirst(ms);
    var unsafe := IncompleteOf(ordered);
    var keep := IdSet(unsafe) + PinIds(pins);
    ghost var always := keep;
    var tenants := TenantsOf(ordered);
    ghost var visited: set<string> := {};
    while tenants != {}
      invariant visited + tenants == TenantsOf(ordered)
      invariant keep == always + KeptOver(ordered, visited, w)
      decreases |tenants|
    {
      var tenant :| tenant in tenants;
      keep := AddTenant(CompleteOf(ordered, tenant), w, keep);
      KeptOverStep(ordered, visited, tenant, w);
      tenants, visited := tenants - {tenant}, visited + {tenant};
    }
    assert visited == TenantsOf(ordered);
    KeepIsRetained(ms, w, pins);
    SidesDisjoint(ordered, keep);
    r := Ok(Plan(Ids(Restrict(ordered, keep)), Ids(Exclude(ordered, keep)), pins, WarningsOf(unsafe, pins)));
  }

  lemma KeptOverStep(ordered: seq<Manifest>, tenants: set<string>, t: string, w: Windows)
    ensures KeptOver(ordered, tenants + {t}, w) == KeptOver(ordered, tenants, w) + TenantKeep(CompleteOf(ordered, t), w)
  {
  }

  lemma SidesDisjoint(ordered: seq<Manifest>, keep: set<string>)
    ensures forall id | id in Ids(Exclude(ordered, keep)) :: id !in Ids(Restrict(ordered, keep)) && id !in keep
  {
    IdsMembers(Exclude(ordered, keep));
    ExcludeMembers(ordered, keep);
    IdsMembers(Restrict(ordered, keep));
    RestrictMembers(ordered, keep);
  }

  lemma KeepByStep(complete: seq<Manifest>, i: nat, period: Period, seen: set<int>, limit: int)
    requires i < |complete|
    ensures var key := Key(period, complete[i]);
            KeepBy(complete[i..], period, seen, limit) ==
              if |seen| < limit && key !in seen then {complete[i].id} + KeepBy(complete[i + 1..], period, seen + {key}, limit)
              else KeepBy(complete[i + 1..], period, seen, limit)
  {
    assert complete[i..][0] == complete[i] && complete[i..][1..] == complete[i + 1..];
  }

  // The newest-first pass over one tenant's complete backups.
  method AddTenant(complete: seq<Manifest>, w: Windows, keep: set<string>) returns (more: set<string>)
    ensures more == keep + TenantKeep(complete, w)
  {
    more := keep;
    if complete != [] {
      more := more + {complete[0].id};
    }
    NewestSlot(complete);
    var seenDays: set<int>, seenWeeks: set<int> := {}, {};
    for i := 0 to |complete|
      invariant more + KeepBy(complete[i..], Day, seenDays, w.daily) + KeepBy(complete[i..], Week, seenWeeks, w.weekly)
             == keep + TenantKeep(complete, w)
    {
      var m := complete[i];
      KeepByStep(complete, i, Day, seenDays, w.daily);
      KeepByStep(complete, i, Week, seenWeeks, w.weekly);
      var day, week := Key(Day, m), Key(Week, m);
      if |seenDays| < w.daily && day !in seenDays {
        more := more + {m.id};
        seenDays := seenDays + {day};
      }
      if |seenWeeks| < w.weekly && week !in seenWeeks {
        more := more + {m.id};
        seenWeeks := seenWeeks + {week};
      }
    }
  }

  lemma KeepIsRetained(ms: seq<Manifest>, w: Windows, pins: seq<Pin>)
    ensures var o := NewestFirst(ms);
            IdSet(IncompleteOf(o)) + PinIds(pins) + KeptOver(o, TenantsOf(o), w) == Retained(ms, w, pins)
  {
    var o := NewestFirst(ms);
    NewestFirstMembers(ms);
    IncompleteMembers(o);
    IncompleteMembers(ms);
    assert IdSet(IncompleteOf(o)) == IdSet(IncompleteOf(ms));
    assert TenantsOf(o) == TenantsOf(ms);
  }

  datatype Execution = Execution(deleted: seq<string>, failed: seq<string>, pins: seq<Pin>)

  // The ids whose deletion, attempted as call number k, k + 1, ..., ends as `ok`.
  function Outcomes(ids: seq<string>, succeeds: nat -> bool, k: nat, ok: bool): seq<string> {
    if ids == [] then []
    else (if succeeds(k) == ok then [ids[0]] else []) + Outcomes(ids[1..], succeeds, k + 1, ok)
  }

  lemma OutcomesAppend(ids: seq<string>, id: string, succeeds: nat -> bool, k: nat, ok: bool)
    ensures Outcomes(ids + [id], succeeds, k, ok)
         == Outcomes(ids, succeeds, k, ok) + if succeeds(k + |ids|) == ok then [id] else []
  {
    if ids != [] {
      assert (ids + [id])[1..] == ids[1..] + [id];
      OutcomesAppend(ids[1..], id, succeeds, k + 1, ok);
    }
  }

  // Each attempted deletion is reported exactly once, as deleted or as failed.
  lemma OutcomesPartition(ids: seq<string>, succeeds: nat -> bool, k: nat)
    ensures multiset(Outcomes(ids, succeeds, k, true)) + multiset(Outcomes(ids, succeeds, k, false)) == multiset(ids)
  {
    if ids != [] {
      assert ids == [ids[0]] + ids[1..];
      OutcomesPartition(ids[1..], succeeds, k + 1);
    }
  }

  // A deletion that succeeds is reported as deleted, and one that fails as failed.
  lemma {:induction false} OutcomesByCall(ids: seq<string>, succeeds: nat -> bool, k: nat)
    ensures |Outcomes(ids, succeeds, k, true)| + |Outcomes(ids, succeeds, k, false)| == |ids|
    ensures forall i | 0 <= i < |ids| :: ids[i] in Outcomes(ids, succeeds, k, succeeds(k + i))
  {
    if ids != [] {
      OutcomesByCall(ids[1..], succeeds, k + 1);
      forall i | 0 <= i < |ids| ensures ids[i] in Outcomes(ids, succeeds, k, succeeds(k + i)) {
        if i > 0 {
          assert ids[1..][i - 1] in Outcomes(ids[1..], succeeds, k + 1, succeeds(k + 1 + (i - 1)));
        }
      }
    }
  }

  ghost predicate Protected(plan: Plan, id: string) {
    id in plan.keep || id in PinIds(plan.pins)
  }

  // `attempted` lists the deletions sent to the store, including those before a rejection.
  method ApplyRetention(plan: Plan, succeeds: nat -> bool)
    returns (r: Result<Execution, string>, attempted: seq<string>)
    ensures r.Err? <==> exists id | id in plan.delete :: Protected(plan, id)
    ensures attempted <= plan.delete && forall id | id in attempted :: !Protected(plan, id)
    ensures r.Err? ==> |attempted| < |plan.delete| && r.error == plan.delete[|attempted|] && Protected(plan, r.error)
    ensures r.Ok? ==>
      && attempted == plan.delete
      && r.value.deleted == Outcomes(plan.delete, succeeds, 0, true)
      && r.value.failed == Outcomes(plan.delete, succeeds, 0, false)
      && r.value.pins == plan.pins
    ensures r.Ok? ==> |r.value.deleted| + |r.value.failed| == |plan.delete|
    ensures r.Ok? ==> forall i | 0 <= i < |plan.delete| ::
                        if succeeds(i) then plan.delete[i] in r.value.deleted else plan.delete[i] in r.value.failed
  {
    var deleted, failed := [], [];
    var kept := set id | id in plan.keep;
    var protected := kept + PinIds(plan.pins);
    attempted := [];
    for i := 0 to |plan.delete|
      invariant attempted == plan.delete[..i]
      invariant forall id | id in attempted :: !Protected(plan, id)
      invariant deleted == Outcomes(plan.delete[..i], succeeds, 0, true)
      invariant failed == Outcomes(plan.delete[..i], succeeds, 0, false)
    {
      var id := plan.delete[i];
      if id in protected {
        assert Protected(plan, id);
        return Err(id), attempted;
      }
      assert plan.delete[..i + 1] == plan.delete[..i] + [id];
      OutcomesAppend(plan.delete[..i], id, succeeds, 0, true);
      OutcomesAppend(plan.delete[..i], id, succeeds, 0, false);
      if succeeds(i) {
        deleted := deleted + [id];
      } else {
        failed := failed + [id];
      }
      attempted := attempted + [id];
    }
    assert plan.delete[..|plan.delete|] == plan.delete;
    OutcomesByCall(plan.delete, succeeds, 0);
    assert forall i | 0 <= i < |plan.delete| :: plan.delete[i] in Outcomes(plan.delete, succeeds, 0, succeeds(0 + i));
    r := Ok(Execution(deleted, failed, plan.pins));
  }

  // One nightly prune: plan over the whole inventory, then apply. It never raises, and what
  // stays is what the plan retains plus the deletions that failed: the step of `Inventory`.
  method PruneNight(inventory: seq<Manifest>, arrivals: seq<Manifest>, w: Windows, pins: seq<Pin>,
          succeeds: nat -> bool)
    returns (left: seq<Manifest>, failed: seq<string>)
    requires w.daily >= 0 && w.weekly >= 0 && UniqueIds(inventory + arrivals)
    ensures var before := inventory + arrivals;
      && left == Restrict(before, Retained(before, w, pins) + (set id | id in failed))
      && (forall id | id in failed :: id in IdSet(before) && id !in Retained(before, w, pins))
  {
    var before := inventory + arrivals;
    var plan := PlanRetention(before, w, pins);
    var execution, attempted := ApplyRetention(plan.value, succeeds);
    var deleted := execution.value.deleted;
    failed := execution.value.failed;
    left := Exclude(before, (set id | id in deleted));

    ghost var keep := Retained(before, w, pins);
    DeletionsSplit(before, keep, succeeds);
    ExcludeIsRestrict(before, (set id | id in deleted), keep + (set id | id in failed));
  }

  lemma DeletionsSplit(ms: seq<Manifest>, keep: set<string>, succeeds: nat -> bool)
    requires UniqueIds(ms)
    ensures var ids := Ids(Exclude(NewestFirst(ms), keep));
            var deleted, failed := Outcomes(ids, succeeds, 0, true), Outcomes(ids, succeeds, 0, false);
            forall id :: (id in deleted || id in failed <==> id in IdSet(ms) && id !in keep) && !(id in deleted && id in failed)
  {
    var listing := Exclude(NewestFirst(ms), keep);
    var ids := Ids(listing);
    var deleted, failed := Outcomes(ids, succeeds, 0, true), Outcomes(ids, succeeds, 0, false);
    OutcomesPartition(ids, succeeds, 0);
    IdsMembers(listing);
    ExcludeMembers(NewestFirst(ms), keep);
    NewestFirstMembers(ms);
    NewestFirstSorts(ms);
    UniquePermutation(ms, NewestFirst(ms));
    ExcludeUnique(NewestFirst(ms), keep);
    forall id
      ensures id in deleted || id in failed <==> id in IdSet(ms) && id !in keep
      ensures !(id in deleted && id in failed)
    {
      UniqueIdsOnce(listing, id);
      assert multiset(ids)[id] == multiset(deleted)[id] + multiset(failed)[id];
      assert id in ids <==> id in multiset(ids);
    }
  }

  lemma ExcludeUnique(ms: seq<Manifest>, ids: set<string>)
    requires UniqueIds(ms)
    ensures UniqueIds(Exclude(ms, ids))
  {
    if ms != [] {
      ExcludeUnique(ms[1..], ids);
      ExcludeMembers(ms[1..], ids);
    }
  }

  lemma {:induction false} UniqueIdsOnce(ms: seq<Manifest>, id: string)
    requires UniqueIds(ms)
    ensures multiset(Ids(ms))[id] <= 1
  {
    if ms != [] {
      UniqueIdsOnce(ms[1..], id);
      IdsMembers(ms[1..]);
      UniqueCons(ms);
      assert multiset(Ids(ms)) == multiset{ms[0].id} + multiset(Ids(ms[1..]));
    }
  }

  lemma ExcludeIsRestrict(ms: seq<Manifest>, out: set<string>, stay: set<string>)
    requires forall m | m in ms :: m.id in out <==> m.id !in stay
    ensures Exclude(ms, out) == Restrict(ms, stay)
  {
    if ms != [] {
      ExcludeIsRestrict(ms[1..], out, stay);
    }
  }
}
