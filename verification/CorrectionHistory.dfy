// Import order of archived corrections: a depth-first sort along the supersedes relation,
// and the shape of the histories that the private archive validation accepts.
module CorrectionHistory {
  import opened Common
  import opened MemoryModels

  // ---------------------------------------------------------------------------
  // The supersedes relation inside one archive
  // ---------------------------------------------------------------------------

  function ById(items: seq<MemoryItem>): map<string, MemoryItem> {
    if items == [] then map[]
    else var last := items[|items| - 1]; ById(items[..|items| - 1])[last.id := last]
  }

  function Parent(byId: map<string, MemoryItem>, id: string): Option<string> {
    if id in byId && byId[id].supersedes.Some? && byId[id].supersedes.value in byId
    then byId[id].supersedes else None
  }

  ghost function Ancestor(byId: map<string, MemoryItem>, id: string, n: nat): Option<string> {
    if n == 0 then Some(id)
    else match Ancestor(byId, id, n - 1) case None => None case Some(a) => Parent(byId, a)
  }

  ghost predicate HasCycle(byId: map<string, MemoryItem>) {
    exists id, n: nat :: id in byId && n > 0 && Ancestor(byId, id, n) == Some(id)
  }

  ghost predicate AncestorsFirst(byId: map<string, MemoryItem>, ordered: seq<MemoryItem>) {
    forall i, n: nat | 0 <= i < |ordered| && n > 0 && Ancestor(byId, ordered[i].id, n).Some? ::
      exists j :: 0 <= j < i && ordered[j].id == Ancestor(byId, ordered[i].id, n).value
  }

  ghost predicate ParentsFirst(byId: map<string, MemoryItem>, ordered: seq<MemoryItem>) {
    forall i | 0 <= i < |ordered| && Parent(byId, ordered[i].id).Some? ::
      exists j :: 0 <= j < i && ordered[j].id == Parent(byId, ordered[i].id).value
  }

  lemma ByIdSnoc(items: seq<MemoryItem>, last: MemoryItem)
    ensures ById(items + [last]) == ById(items)[last.id := last]
  {
    assert (items + [last])[..|items|] == items;
  }

  lemma LastDiffers(items: seq<MemoryItem>, n: nat)
    requires |items| == n + 1 && UniqueItemIds(items)
    ensures UniqueItemIds(items[..n]) && forall item | item in items[..n] :: item.id != items[n].id
  {
    forall item | item in items[..n] ensures item.id != items[n].id {
      var i :| 0 <= i < n && items[i] == item;
    }
  }

  lemma {:induction false} ByIdFinds(items: seq<MemoryItem>)
    ensures ById(items).Keys == ItemIds(items)
    ensures forall id | id in ById(items) :: ById(items)[id].id == id && ById(items)[id] in items
    ensures UniqueItemIds(items) ==> forall item | item in items :: ById(items)[item.id] == item
  {
    if items != [] {
      var n := |items| - 1;
      ByIdFinds(items[..n]);
      assert items == items[..n] + [items[n]];
      ByIdSnoc(items[..n], items[n]);
      if UniqueItemIds(items) { LastDiffers(items, n); }
    }
  }

  lemma {:induction false} ParentsFirstIsAncestorsFirst(byId: map<string, MemoryItem>, ordered: seq<MemoryItem>)
    requires ParentsFirst(byId, ordered)
    ensures AncestorsFirst(byId, ordered)
  {
    forall i, n: nat | 0 <= i < |ordered| && n > 0 && Ancestor(byId, ordered[i].id, n).Some?
      ensures exists j :: 0 <= j < i && ordered[j].id == Ancestor(byId, ordered[i].id, n).value
    {
      AncestorBefore(byId, ordered, i, n);
    }
  }

  lemma {:induction false} AncestorBefore(byId: map<string, MemoryItem>, ordered: seq<MemoryItem>, i: nat, n: nat)
    requires ParentsFirst(byId, ordered)
    requires i < |ordered| && n > 0 && Ancestor(byId, ordered[i].id, n).Some?
    ensures exists j :: 0 <= j < i && ordered[j].id == Ancestor(byId, ordered[i].id, n).value
  {
    if n == 1 {
      assert Ancestor(byId, ordered[i].id, 0) == Some(ordered[i].id);
    } else {
      AncestorBefore(byId, ordered, i, n - 1);
    }
  }

  // An order with parents first leaves no room for a cycle.
  lemma SortedIsAcyclic(byId: map<string, MemoryItem>, ordered: seq<MemoryItem>)
    requires ParentsFirst(byId, ordered) && UniqueItemIds(ordered) && byId.Keys <= ItemIds(ordered)
    ensures !HasCycle(byId)
  {
    forall id, n: nat | id in byId && n > 0 ensures Ancestor(byId, id, n) != Some(id) {
      var item :| item in ordered && item.id == id;
      var i :| 0 <= i < |ordered| && ordered[i] == item;
      if Ancestor(byId, id, n).Some? {
        AncestorBefore(byId, ordered, i, n);
      }
    }
  }

  ghost predicate Ascends(byId: map<string, MemoryItem>, path: seq<string>) {
    forall k | 0 <= k < |path| - 1 :: Parent(byId, path[k]) == Some(path[k + 1])
  }

  lemma {:induction false} PathAncestor(byId: map<string, MemoryItem>, path: seq<string>, k: nat, n: nat)
    requires Ascends(byId, path) && k + n < |path|
    ensures Ancestor(byId, path[k], n) == Some(path[k + n])
  {
    if n > 0 {
      PathAncestor(byId, path, k, n - 1);
    }
  }

  // ---------------------------------------------------------------------------
  // The depth-first sort
  // ---------------------------------------------------------------------------

  // The variables that the recursive visit shares with its caller.
  class HistorySorter {
    const byId: map<string, MemoryItem>
    var visiting: set<string>
    var permanent: set<string>
    var ordered: seq<MemoryItem>

    constructor (byId: map<string, MemoryItem>)
      ensures this.byId == byId && visiting == {} && permanent == {} && ordered == []
    {
      this.byId := byId;
      visiting, permanent, ordered := {}, {}, [];
    }

    ghost predicate Valid()
      reads this
    {
      && (forall id | id in byId :: byId[id].id == id)
      && (forall item | item in ordered :: item.id in byId && byId[item.id] == item)
      && UniqueItemIds(ordered)
      && permanent == ItemIds(ordered)
      && ParentsFirst(byId, ordered)
      && visiting !! permanent
      && visiting <= byId.Keys
    }

    // `path` holds the ids being visited, each the parent of the one before it.
    method Visit(item: MemoryItem, ghost path: seq<string>) returns (ok: bool)
      requires Valid() && item.id in byId && byId[item.id] == item
      requires Ascends(byId, path + [item.id]) && (forall id :: id in path <==> id in visiting)
      modifies this
      ensures ok ==> Valid() && visiting == old(visiting) && old(ordered) <= ordered && item.id in permanent
      ensures !ok ==> HasCycle(byId)
      decreases byId.Keys - visiting
    {
      if item.id in permanent {
        return true;
      }
      if item.id in visiting {
        ghost var k :| 0 <= k < |path| && path[k] == item.id;
        PathAncestor(byId, path + [item.id], k, |path| - k);
        return false;
      }
      visiting := visiting + {item.id};
      if item.supersedes.Some? && item.supersedes.value in byId {
        var parent := item.supersedes.value;
        assert Parent(byId, item.id) == Some(parent);
        assert Ascends(byId, path + [item.id] + [parent]);
        ok := Visit(byId[parent], path + [item.id]);
        if !ok {
          return;
        }
      }
      Settle(item);
      ok := true;
    }

    // The visit of an item whose parent has its place, if it has one, ends.
    method Settle(item: MemoryItem)
      requires Valid() && item.id in visiting && byId[item.id] == item
      requires Parent(byId, item.id).Some? ==> Parent(byId, item.id).value in permanent
      modifies this
      ensures Valid() && visiting == old(visiting) - {item.id}
      ensures permanent == old(permanent) + {item.id} && ordered == old(ordered) + [item]
    {
      visiting := visiting - {item.id};
      permanent := permanent + {item.id};
      AppendParentsFirst(byId, ordered, item);
      ordered := ordered + [item];
      assert ItemIds(ordered) == permanent;
    }
  }

  lemma AppendParentsFirst(byId: map<string, MemoryItem>, ordered: seq<MemoryItem>, item: MemoryItem)
    requires ParentsFirst(byId, ordered)
    requires Parent(byId, item.id).Some? ==> Parent(byId, item.id).value in ItemIds(ordered)
    ensures ParentsFirst(byId, ordered + [item])
  {
    var more := ordered + [item];
    forall i | 0 <= i < |more| && Parent(byId, more[i].id).Some?
      ensures exists j :: 0 <= j < i && more[j].id == Parent(byId, more[i].id).value
    {
      var p := Parent(byId, more[i].id).value;
      if i < |ordered| {
        var j :| 0 <= j < i && ordered[j].id == p;
        assert more[j].id == p;
      } else {
        var a :| a in ordered && a.id == p;
        var j :| 0 <= j < |ordered| && ordered[j] == a;
        assert more[j].id == p;
      }
    }
  }

  datatype HistoryError = CyclicHistory

  // What the sorter leaves when every item has its place.
  lemma SortedHistory(items: seq<MemoryItem>, ordered: seq<MemoryItem>)
    requires UniqueItemIds(items) && UniqueItemIds(ordered) && ParentsFirst(ById(items), ordered)
    requires forall item | item in ordered :: item.id in ById(items) && ById(items)[item.id] == item
    requires forall j | 0 <= j < |items| :: items[j].id in ItemIds(ordered)
    ensures !HasCycle(ById(items)) && AncestorsFirst(ById(items), ordered) && multiset(ordered) == multiset(items)
  {
    PlacesForAll(items, ordered);
    ByIdFinds(items);
    SortedIsAcyclic(ById(items), ordered);
    ParentsFirstIsAncestorsFirst(ById(items), ordered);
    SameMembersPermute(ordered, items);
  }

  lemma PlacesForAll(items: seq<MemoryItem>, ordered: seq<MemoryItem>)
    requires UniqueItemIds(items)
    requires forall item | item in ordered :: item.id in ById(items) && ById(items)[item.id] == item
    requires forall j | 0 <= j < |items| :: items[j].id in ItemIds(ordered)
    ensures ItemIds(items) <= ItemIds(ordered)
    ensures forall item :: item in ordered <==> item in items
  {
    ByIdFinds(items);
    forall item ensures item in ordered <==> item in items {
      if item in items {
        assert item.id in ItemIds(ordered);
      }
    }
  }

  // Corrections that lead from an item back to it.
  ghost predicate IsLoop(items: seq<MemoryItem>, loop: seq<MemoryItem>) {
    && loop != [] && (forall item | item in loop :: item in items)
    && (forall k | 0 <= k < |loop| - 1 :: loop[k].supersedes == Some(loop[k + 1].id))
    && loop[|loop| - 1].supersedes == Some(loop[0].id)
  }

  lemma {:induction false} EarlierAncestors(byId: map<string, MemoryItem>, id: string, n: nat, k: nat)
    requires Ancestor(byId, id, n).Some? && k < n
    ensures Ancestor(byId, id, k).Some? && Ancestor(byId, id, k).value in byId
    ensures Ancestor(byId, id, k + 1) == byId[Ancestor(byId, id, k).value].supersedes
  {
    if k < n - 1 { EarlierAncestors(byId, id, n - 1, k); }
  }

  lemma CycleIsLoop(items: seq<MemoryItem>)
    requires UniqueItemIds(items) && HasCycle(ById(items))
    ensures exists loop :: IsLoop(items, loop)
  {
    var byId := ById(items);
    var id, n: nat :| id in byId && n > 0 && Ancestor(byId, id, n) == Some(id);
    ByIdFinds(items);
    forall k: nat | k < n
      ensures Ancestor(byId, id, k).Some? && Ancestor(byId, id, k).value in byId
      ensures Ancestor(byId, id, k + 1) == byId[Ancestor(byId, id, k).value].supersedes
    {
      EarlierAncestors(byId, id, n, k);
    }
    var loop := seq(n, k requires 0 <= k < n => byId[Ancestor(byId, id, k).value]);
    assert loop[0].id == id;
    assert IsLoop(items, loop);
  }

  ghost predicate EachAfterItsParent(ordered: seq<MemoryItem>) {
    forall i, j | 0 <= i < |ordered| && 0 <= j < |ordered| :: ordered[i].supersedes == Some(ordered[j].id) ==> j < i
  }

  lemma ParentsBefore(items: seq<MemoryItem>, ordered: seq<MemoryItem>)
    requires UniqueItemIds(items) && UniqueItemIds(ordered) && multiset(ordered) == multiset(items)
    requires AncestorsFirst(ById(items), ordered)
    ensures EachAfterItsParent(ordered)
  {
    var byId := ById(items);
    ByIdFinds(items);
    forall i, j | 0 <= i < |ordered| && 0 <= j < |ordered| && ordered[i].supersedes == Some(ordered[j].id) ensures j < i {
      assert ordered[i] in multiset(ordered) && ordered[j] in multiset(ordered);
      assert ordered[i] in items && ordered[j] in items;
      assert Ancestor(byId, ordered[i].id, 0) == Some(ordered[i].id);
      assert Ancestor(byId, ordered[i].id, 1) == Some(ordered[j].id);
      var h :| 0 <= h < i && ordered[h].id == ordered[j].id;
    }
  }

  // Raises exactly on a cycle; otherwise a permutation with every ancestor before its descendants.
  method OrderCorrectionHistory(items: seq<MemoryItem>) returns (r: Result<seq<MemoryItem>, HistoryError>)
    requires UniqueItemIds(items)
    ensures r.Err? <==> HasCycle(ById(items))
    ensures r.Ok? ==> multiset(r.value) == multiset(items) && AncestorsFirst(ById(items), r.value)
    ensures r.Ok? ==> EachAfterItsParent(r.value)
    ensures r.Err? ==> exists loop :: IsLoop(items, loop)
  {
    ByIdFinds(items);
    var sorter := new HistorySorter(ById(items));
    for i := 0 to |items|
      invariant sorter.Valid() && sorter.visiting == {} && sorter.byId == ById(items)
      invariant forall j | 0 <= j < i :: items[j].id in sorter.permanent
    {
      var ok := sorter.Visit(items[i], []);
      if !ok {
        CycleIsLoop(items);
        return Err(CyclicHistory);
      }
    }
    var ordered := sorter.ordered;
    SortedHistory(items, ordered);
    ParentsBefore(items, ordered);
    r := Ok(ordered);
  }

  lemma {:induction false} UniqueOnce(items: seq<MemoryItem>, item: MemoryItem)
    requires UniqueItemIds(items)
    ensures multiset(items)[item] == if item in items then 1 else 0
  {
    if items != [] {
      UniqueOnce(items[1..], item);
      assert items == [items[0]] + items[1..];
      forall other | other in items[1..] ensures other != items[0] {
        var i :| 0 <= i < |items[1..]| && items[1..][i] == other;
        assert items[0].id != items[i + 1].id;
      }
    }
  }

  lemma PermutationMembers(a: seq<MemoryItem>, b: seq<MemoryItem>)
    requires multiset(a) == multiset(b)
    ensures forall item :: item in a <==> item in b
    ensures ItemIds(a) == ItemIds(b)
  {
    forall item ensures item in a <==> item in b {
      assert item in multiset(a) <==> item in multiset(b);
    }
  }

  lemma SameMembersPermute(a: seq<MemoryItem>, b: seq<MemoryItem>)
    requires UniqueItemIds(a) && UniqueItemIds(b)
    requires forall item :: item in a <==> item in b
    ensures multiset(a) == multiset(b)
  {
    forall item ensures multiset(a)[item] == multiset(b)[item] {
      UniqueOnce(a, item);
      UniqueOnce(b, item);
    }
  }

  // ---------------------------------------------------------------------------
  // Accepted private archives are disjoint linear chains
  // ---------------------------------------------------------------------------

  datatype ArchiveError =
    | NonPrivateItem
    | BranchingHistory
    | SelfCorrection
    | IncompleteHistory
    | AncestorNotSuperseded

  function CorrectedParents(items: seq<MemoryItem>): seq<string> {
    if items == [] then []
    else (if items[0].supersedes.Some? then [items[0].supersedes.value] else []) + CorrectedParents(items[1..])
  }

  function FirstLinkError(items: seq<MemoryItem>, byId: map<string, MemoryItem>,
          erased: set<string>): Option<ArchiveError> {
    if items == [] then None
    else match items[0].supersedes
      case None => FirstLinkError(items[1..], byId, erased)
      case Some(p) =>
        if p == items[0].id then Some(SelfCorrection)
        else if p !in byId && p !in erased then Some(IncompleteHistory)
        else if p in byId && byId[p].state != Superseded then Some(AncestorNotSuperseded)
        else FirstLinkError(items[1..], byId, erased)
  }

  function ValidatePrivateArchive(items: seq<MemoryItem>, erased: set<string>): Option<ArchiveError> {
    if exists item | item in items :: item.scope != Private then Some(NonPrivateItem)
    else
      var parents := CorrectedParents(items);
      if |parents| != |Members(parents)| then Some(BranchingHistory)
      else FirstLinkError(items, ById(items), erased)
  }

  ghost predicate SingleChildren(items: seq<MemoryItem>) {
    forall i, j | 0 <= i < j < |items| && items[i].supersedes.Some? :: items[i].supersedes != items[j].supersedes
  }

  ghost predicate LinkAccepted(item: MemoryItem, byId: map<string, MemoryItem>, erased: set<string>) {
    item.supersedes.Some? ==>
      var p := item.supersedes.value;
      p != item.id && if p in byId then byId[p].state == Superseded else p in erased
  }

  lemma {:induction false} ParentsMembers(items: seq<MemoryItem>)
    ensures forall p :: p in CorrectedParents(items) <==> exists item :: item in items && item.supersedes == Some(p)
  {
    if items != [] {
      ParentsMembers(items[1..]);
      assert items == [items[0]] + items[1..];
    }
  }

  function Members(ps: seq<string>): set<string> {
    set p | p in ps
  }

  lemma MembersCons(p: string, qs: seq<string>)
    ensures |Members([p] + qs)| == |Members(qs)| + if p in qs then 0 else 1
  {
    assert Members([p] + qs) == {p} + Members(qs);
    if p in qs { assert {p} + Members(qs) == Members(qs); }
  }

  lemma {:induction false} DistinctParents(items: seq<MemoryItem>)
    ensures var ps := CorrectedParents(items);
            |Members(ps)| <= |ps| && (|Members(ps)| == |ps| <==> SingleChildren(items))
  {
    if items != [] {
      var rest := items[1..];
      DistinctParents(rest);
      SingleChildrenCons(items);
      if items[0].supersedes.Some? {
        var p := items[0].supersedes.value;
        ParentsMembers(rest);
        assert CorrectedParents(items) == [p] + CorrectedParents(rest);
        MembersCons(p, CorrectedParents(rest));
      } else {
        assert CorrectedParents(items) == CorrectedParents(rest);
      }
    }
  }

  lemma SingleChildrenCons(items: seq<MemoryItem>)
    requires items != []
    ensures SingleChildren(items) <==>
      && SingleChildren(items[1..])
      && (items[0].supersedes.Some? ==> forall item | item in items[1..] :: item.supersedes != items[0].supersedes)
  {
    var rest := items[1..];
    assert forall j | 0 <= j < |rest| :: rest[j] == items[j + 1];
    if SingleChildren(items) && items[0].supersedes.Some? {
      forall item | item in rest ensures item.supersedes != items[0].supersedes {
        var j :| 0 <= j < |rest| && rest[j] == item;
        assert items[0].supersedes != items[j + 1].supersedes;
      }
    } else if !SingleChildren(items) {
      var i, j :| 0 <= i < j < |items| && items[i].supersedes.Some? && items[i].supersedes == items[j].supersedes;
      assert rest[j - 1] in rest;
      assert i > 0 ==> rest[i - 1].supersedes == rest[j - 1].supersedes;
    }
  }

  lemma {:induction false} LinksChecked(items: seq<MemoryItem>, byId: map<string, MemoryItem>, erased: set<string>)
    ensures FirstLinkError(items, byId, erased).None? <==> forall item | item in items :: LinkAccepted(item, byId, erased)
  {
    if items != [] {
      LinksChecked(items[1..], byId, erased);
      assert items == [items[0]] + items[1..];
      if LinkAccepted(items[0], byId, erased) {
        assert FirstLinkError(items, byId, erased) == FirstLinkError(items[1..], byId, erased);
      } else {
        assert FirstLinkError(items, byId, erased).Some?;
      }
    }
  }

  // The validator accepts exactly the private archives whose links pass every check.
  lemma AcceptsExactly(items: seq<MemoryItem>, erased: set<string>)
    ensures ValidatePrivateArchive(items, erased).None? <==>
      && (forall item | item in items :: item.scope == Private)
      && SingleChildren(items)
      && (forall item | item in items :: LinkAccepted(item, ById(items), erased))
  {
    DistinctParents(items);
    LinksChecked(items, ById(items), erased);
  }

  function Tip(chain: seq<MemoryItem>): MemoryItem
    requires chain != []
  {
    chain[|chain| - 1]
  }

  // Extends the chain whose tip the item corrects, or starts a new chain.
  ghost function Place(chains: seq<seq<MemoryItem>>, item: MemoryItem): seq<seq<MemoryItem>> {
    if chains == [] then [[item]]
    else if chains[0] != [] && item.supersedes == Some(Tip(chains[0]).id) then [chains[0] + [item]] + chains[1..]
    else [chains[0]] + Place(chains[1..], item)
  }

  ghost function Chains(ordered: seq<MemoryItem>): seq<seq<MemoryItem>> {
    if ordered == [] then [] else Place(Chains(ordered[..|ordered| - 1]), ordered[|ordered| - 1])
  }

  ghost function Flatten(chains: seq<seq<MemoryItem>>): seq<MemoryItem> {
    if chains == [] then [] else chains[0] + Flatten(chains[1..])
  }

  ghost predicate Linear(chain: seq<MemoryItem>, byId: map<string, MemoryItem>) {
    && chain != []
    && Parent(byId, chain[0].id).None?
    && forall k | 0 <= k < |chain| - 1 :: chain[k + 1].supersedes == Some(chain[k].id)
  }

  lemma {:induction false} PlaceFlattens(chains: seq<seq<MemoryItem>>, item: MemoryItem)
    ensures multiset(Flatten(Place(chains, item))) == multiset(Flatten(chains)) + multiset{item}
  {
    var placed := Place(chains, item);
    if chains == [] {
      assert Flatten(placed) == [item] + Flatten([]);
    } else if chains[0] != [] && item.supersedes == Some(Tip(chains[0]).id) {
      assert placed[1..] == chains[1..];
      assert Flatten(placed) == chains[0] + [item] + Flatten(chains[1..]);
    } else {
      PlaceFlattens(chains[1..], item);
      assert placed[1..] == Place(chains[1..], item);
    }
  }

  lemma {:induction false} PlaceLinear(chains: seq<seq<MemoryItem>>, item: MemoryItem, byId: map<string, MemoryItem>)
    requires forall c | c in chains :: Linear(c, byId)
    requires Parent(byId, item.id).Some? ==> exists c :: c in chains && c != [] && item.supersedes == Some(Tip(c).id)
    ensures forall c | c in Place(chains, item) :: Linear(c, byId)
  {
    if chains != [] {
      assert chains == [chains[0]] + chains[1..];
      assert chains[0] in chains;
      if item.supersedes != Some(Tip(chains[0]).id) {
        PlaceLinear(chains[1..], item, byId);
      }
    }
  }

  lemma {:induction false} FlattenFinds(chains: seq<seq<MemoryItem>>, item: MemoryItem)
    ensures item in Flatten(chains) <==> exists c :: c in chains && item in c
  {
    if chains != [] {
      FlattenFinds(chains[1..], item);
      assert chains == [chains[0]] + chains[1..];
    }
  }

  ghost predicate Lookup(byId: map<string, MemoryItem>, ordered: seq<MemoryItem>) {
    && ParentsFirst(byId, ordered)
    && byId.Keys == ItemIds(ordered)
    && forall item | item in ordered :: byId[item.id] == item
  }

  lemma TipOrCorrected(chain: seq<MemoryItem>, k: nat, byId: map<string, MemoryItem>)
    requires Linear(chain, byId) && k < |chain|
    ensures chain[k] == Tip(chain) || exists i :: 0 <= i < |chain| && chain[i].supersedes == Some(chain[k].id)
  {
    if k < |chain| - 1 {
      assert chain[k + 1].supersedes == Some(chain[k].id);
    }
  }

  // While the history is replayed in import order, an unplaced item's parent is always a tip.
  lemma ParentIsTip(ordered: seq<MemoryItem>, n: nat, chains: seq<seq<MemoryItem>>, byId: map<string, MemoryItem>)
    requires n < |ordered| && SingleChildren(ordered) && Lookup(byId, ordered)
    requires multiset(Flatten(chains)) == multiset(ordered[..n])
    requires forall c | c in chains :: Linear(c, byId)
    requires Parent(byId, ordered[n].id).Some?
    ensures exists c :: c in chains && c != [] && ordered[n].supersedes == Some(Tip(c).id)
  {
    assert ordered[n] in ordered;
    var j :| 0 <= j < n && ordered[j].id == Parent(byId, ordered[n].id).value;
    PermutationMembers(Flatten(chains), ordered[..n]);
    assert ordered[..n][j] in ordered[..n];
    FlattenFinds(chains, ordered[j]);
    var c: seq<MemoryItem> :| c in chains && ordered[j] in c;
    var k :| 0 <= k < |c| && c[k] == ordered[j];
    forall i | 0 <= i < |c| ensures c[i].supersedes != Some(c[k].id) {
      FlattenFinds(chains, c[i]);
      var m :| 0 <= m < n && ordered[m] == c[i];
    }
    TipOrCorrected(c, k, byId);
  }

  lemma ChainsStep(ordered: seq<MemoryItem>, n: nat)
    requires 0 < n <= |ordered|
    ensures Chains(ordered[..n]) == Place(Chains(ordered[..n - 1]), ordered[n - 1])
    ensures multiset(ordered[..n]) == multiset(ordered[..n - 1]) + multiset{ordered[n - 1]}
  {
    assert ordered[..n][..n - 1] == ordered[..n - 1];
    assert ordered[..n] == ordered[..n - 1] + [ordered[n - 1]];
  }

  lemma ChainsExtend(ordered: seq<MemoryItem>, n: nat, chains: seq<seq<MemoryItem>>, byId: map<string, MemoryItem>)
    requires n < |ordered| && SingleChildren(ordered) && Lookup(byId, ordered)
    requires chains == Chains(ordered[..n]) && multiset(Flatten(chains)) == multiset(ordered[..n])
    requires forall c | c in chains :: Linear(c, byId)
    ensures forall c | c in Place(chains, ordered[n]) :: Linear(c, byId)
    ensures multiset(Flatten(Place(chains, ordered[n]))) == multiset(ordered[..n]) + multiset{ordered[n]}
  {
    if Parent(byId, ordered[n].id).Some? {
      ParentIsTip(ordered, n, chains, byId);
    }
    PlaceLinear(chains, ordered[n], byId);
    PlaceFlattens(chains, ordered[n]);
  }

  lemma {:induction false} ChainsOfPrefix(ordered: seq<MemoryItem>, n: nat, byId: map<string, MemoryItem>)
    requires n <= |ordered| && SingleChildren(ordered) && Lookup(byId, ordered)
    ensures multiset(Flatten(Chains(ordered[..n]))) == multiset(ordered[..n])
    ensures forall c | c in Chains(ordered[..n]) :: Linear(c, byId)
  {
    if n > 0 {
      ChainsOfPrefix(ordered, n - 1, byId);
      ChainsStep(ordered, n);
      ChainsExtend(ordered, n - 1, Chains(ordered[..n - 1]), byId);
    }
  }

  ghost predicate ChainAccepted(chain: seq<MemoryItem>, archive: set<string>, erased: set<string>) {
    && chain != []
    && (chain[0].supersedes.Some? ==> chain[0].supersedes.value in erased - archive)
    && (forall k | 0 <= k < |chain| - 1 ::
          chain[k + 1].supersedes == Some(chain[k].id) && chain[k].state == Superseded)
  }

  // A sorted and accepted archive falls apart into disjoint linear chains: the chains hold every
  // item once, all items but the tip are superseded, and a root corrects nothing or an erased item.
  lemma AcceptedArchiveIsChains(items: seq<MemoryItem>, ordered: seq<MemoryItem>, erased: set<string>)
    requires UniqueItemIds(items) && multiset(ordered) == multiset(items) && AncestorsFirst(ById(items), ordered)
    requires ValidatePrivateArchive(ordered, erased).None?
    ensures multiset(Flatten(Chains(ordered))) == multiset(items)
    ensures forall c | c in Chains(ordered) :: ChainAccepted(c, ItemIds(items), erased)
  {
    var byId, chains := ById(items), Chains(ordered);
    LookupAgrees(items, ordered);
    AcceptsExactly(ordered, erased);
    assert ordered[..|ordered|] == ordered;
    ChainsOfPrefix(ordered, |ordered|, byId);
    PermutationMembers(Flatten(chains), ordered);
    forall c: seq<MemoryItem> | c in chains ensures ChainAccepted(c, ItemIds(items), erased) {
      forall item | item in c ensures item in ordered {
        FlattenFinds(chains, item);
      }
      ChainLinks(c, byId, erased);
    }
  }

  lemma ChainLinks(c: seq<MemoryItem>, byId: map<string, MemoryItem>, erased: set<string>)
    requires Linear(c, byId) && forall item | item in c :: item.id in byId && byId[item.id] == item && LinkAccepted(item, byId, erased)
    ensures ChainAccepted(c, byId.Keys, erased)
  {
    assert c[0] in c;
    forall k | 0 <= k < |c| - 1 ensures c[k].state == Superseded {
      assert c[k + 1] in c && c[k] in c;
    }
  }

  lemma SameLookup(items: seq<MemoryItem>, ordered: seq<MemoryItem>)
    requires UniqueItemIds(items) && multiset(ordered) == multiset(items)
    ensures ById(ordered) == ById(items) && ById(items).Keys == ItemIds(items) == ItemIds(ordered)
    ensures forall item | item in ordered :: ById(items)[item.id] == item
  {
    ByIdFinds(items);
    ByIdFinds(ordered);
    PermutationMembers(ordered, items);
    forall id | id in ById(items) ensures ById(ordered)[id] == ById(items)[id] {
      assert ById(ordered)[id] in items;
    }
  }

  lemma ParentsComeFirst(byId: map<string, MemoryItem>, ordered: seq<MemoryItem>)
    requires AncestorsFirst(byId, ordered)
    ensures ParentsFirst(byId, ordered)
  {
    forall i | 0 <= i < |ordered| && Parent(byId, ordered[i].id).Some?
      ensures exists j :: 0 <= j < i && ordered[j].id == Parent(byId, ordered[i].id).value
    {
      assert Ancestor(byId, ordered[i].id, 0) == Some(ordered[i].id);
      assert Ancestor(byId, ordered[i].id, 1) == Parent(byId, ordered[i].id);
    }
  }

  lemma LookupAgrees(items: seq<MemoryItem>, ordered: seq<MemoryItem>)
    requires UniqueItemIds(items) && multiset(ordered) == multiset(items) && AncestorsFirst(ById(items), ordered)
    ensures ById(ordered) == ById(items) && Lookup(ById(items), ordered)
    ensures ById(items).Keys == ItemIds(items)
  {
    SameLookup(items, ordered);
    ParentsComeFirst(ById(items), ordered);
  }
}
