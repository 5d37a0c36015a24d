// Pruning the exported OpenAPI document to the component schemas that its paths use.
module OpenApi {
  import opened Common
  import opened Json

  const PREFIX: string := "#/components/schemas/"

  // The component a Reference Object names (section 4.8.23 of OpenAPI 3.1.0).
  function RefTarget(value: Json): set<string> {
    if value.Obj? && "$ref" in value.fields && value.fields["$ref"].Str? && PREFIX <= value.fields["$ref"].text
    then {value.fields["$ref"].text[|PREFIX|..]} else {}
  }

  function References(value: Json): set<string> {
    match value
    case Obj(fields) => RefTarget(value) + set k, name | k in fields && name in References(fields[k]) :: name
    case Arr(items) => set i, name | 0 <= i < |items| && name in References(items[i]) :: name
    case _ => {}
  }

  // `part` is `whole` or nested somewhere inside it.
  ghost predicate Within(part: Json, whole: Json) {
    || part == whole
    || (whole.Obj? && exists k :: k in whole.fields && Within(part, whole.fields[k]))
    || (whole.Arr? && exists i :: 0 <= i < |whole.items| && Within(part, whole.items[i]))
  }

  // The collected names are exactly those of the Reference Objects nested anywhere in the value.
  lemma {:induction false} ReferencesExactly(value: Json, name: string)
    ensures name in References(value) <==> exists part :: Within(part, value) && name in RefTarget(part)
  {
    match value {
      case Obj(fields) =>
        forall k | k in fields
          ensures name in References(fields[k]) <==> exists part :: Within(part, fields[k]) && name in RefTarget(part)
        {
          ReferencesExactly(fields[k], name);
        }
        if name in References(value) && name !in RefTarget(value) {
          var k :| k in fields && name in References(fields[k]);
          var part :| Within(part, fields[k]) && name in RefTarget(part);
          assert Within(part, value);
        }
      case Arr(items) =>
        forall i | 0 <= i < |items|
          ensures name in References(items[i]) <==> exists part :: Within(part, items[i]) && name in RefTarget(part)
        {
          ReferencesExactly(items[i], name);
        }
        if name in References(value) {
          var i :| 0 <= i < |items| && name in References(items[i]);
          var part :| Within(part, items[i]) && name in RefTarget(part);
          assert Within(part, value);
        }
      case _ =>
    }
  }

  // ---------------------------------------------------------------------------
  // Reachability
  // ---------------------------------------------------------------------------

  function Uses(schemas: map<string, Json>, name: string): set<string> {
    if name in schemas then References(schemas[name]) else {}
  }

  // A chain of references that starts in `roots` and ends at its last name.
  ghost predicate Chain(schemas: map<string, Json>, roots: set<string>, chain: seq<string>) {
    && chain != [] && chain[0] in roots
    && forall i | 0 <= i < |chain| - 1 :: chain[i + 1] in Uses(schemas, chain[i])
  }

  ghost predicate Reachable(schemas: map<string, Json>, roots: set<string>, name: string) {
    exists chain :: Chain(schemas, roots, chain) && chain[|chain| - 1] == name
  }

  ghost predicate Closed(schemas: map<string, Json>, names: set<string>) {
    forall name | name in names :: Uses(schemas, name) <= names
  }

  lemma {:induction false} ChainStays(schemas: map<string, Json>, roots: set<string>, names: set<string>,
          chain: seq<string>)
    requires Chain(schemas, roots, chain) && roots <= names && Closed(schemas, names)
    ensures chain[|chain| - 1] in names
  {
    if |chain| > 1 {
      ChainStays(schemas, roots, names, chain[..|chain| - 1]);
    }
  }

  // Reachability is the least closed set over the roots.
  lemma ReachableIsLeast(schemas: map<string, Json>, roots: set<string>, names: set<string>)
    requires roots <= names && Closed(schemas, names)
    requires forall name | name in names :: Reachable(schemas, roots, name)
    ensures forall name :: name in names <==> Reachable(schemas, roots, name)
  {
    forall name | Reachable(schemas, roots, name) ensures name in names {
      var chain :| Chain(schemas, roots, chain) && chain[|chain| - 1] == name;
      ChainStays(schemas, roots, names, chain);
    }
  }

  lemma ReachableStep(schemas: map<string, Json>, roots: set<string>, name: string, next: string)
    requires Reachable(schemas, roots, name) && next in Uses(schemas, name)
    ensures Reachable(schemas, roots, next)
  {
    var chain :| Chain(schemas, roots, chain) && chain[|chain| - 1] == name;
    assert Chain(schemas, roots, chain + [next]);
    assert (chain + [next])[|chain + [next]| - 1] == next;
  }

  lemma ReachableRoot(schemas: map<string, Json>, roots: set<string>, name: string)
    requires name in roots
    ensures Reachable(schemas, roots, name)
  {
    assert Chain(schemas, roots, [name]);
    assert [name][|[name]| - 1] == name;
  }

  // Every name a closed exploration can ever meet.
  ghost function Universe(schemas: map<string, Json>, roots: set<string>): set<string> {
    roots + set k, name | k in schemas && name in References(schemas[k]) :: name
  }

  // ---------------------------------------------------------------------------
  // The worklist
  // ---------------------------------------------------------------------------

  ghost predicate Explored(schemas: map<string, Json>, roots: set<string>, reachable: set<string>,
          queue: seq<string>) {
    && roots <= reachable <= Universe(schemas, roots)
    && (forall name | name in reachable :: Reachable(schemas, roots, name))
    && (forall name | name in queue :: name in reachable)
    && (forall name | name in reachable && name !in queue :: Uses(schemas, name) <= reachable)
  }

  method SetToSeq(names: set<string>) returns (listed: seq<string>)
    ensures forall name :: name in listed <==> name in names
  {
    listed := [];
    var rest := names;
    while rest != {}
      invariant rest <= names
      invariant forall name :: name in listed <==> name in names && name !in rest
      decreases |rest|
    {
      var name :| name in rest;
      listed, rest := listed + [name], rest - {name};
    }
  }

  // Adds the names not met before, and queues exactly those.
  method Enqueue(nested: set<string>, reachable: set<string>, queue: seq<string>)
    returns (reachable': set<string>, queue': seq<string>)
    ensures reachable' == reachable + nested
    ensures forall name :: name in queue' <==> name in queue || name in nested - reachable
    ensures nested <= reachable ==> queue' == queue
  {
    reachable', queue' := reachable, queue;
    var rest := nested;
    while rest != {}
      invariant rest <= nested
      invariant reachable' == reachable + (nested - rest)
      invariant forall name :: name in queue' <==> name in queue || (name in nested - rest && name !in reachable)
      invariant nested <= reachable ==> queue' == queue
      decreases |rest|
    {
      var name :| name in rest;
      if name !in reachable' {
        reachable', queue' := reachable' + {name}, queue' + [name];
      }
      rest := rest - {name};
    }
  }

  lemma InFront(queue: seq<string>, other: string)
    requires queue != [] && other != queue[|queue| - 1]
    ensures other in queue ==> other in queue[..|queue| - 1]
  {
    assert queue == queue[..|queue| - 1] + [queue[|queue| - 1]];
  }

  // Taking `name` off the queue and adding what it uses.
  lemma ExploredStep(schemas: map<string, Json>, roots: set<string>, before: set<string>, queue: seq<string>,
          after: set<string>, queue': seq<string>)
    requires queue != [] && Explored(schemas, roots, before, queue)
    requires after == before + Uses(schemas, queue[|queue| - 1])
    requires forall next :: next in queue' <==> next in queue[..|queue| - 1] || next in after - before
    ensures Explored(schemas, roots, after, queue')
  {
    var name := queue[|queue| - 1];
    assert name in queue;
    forall next | next in after ensures Reachable(schemas, roots, next) {
      if next !in before { ReachableStep(schemas, roots, name, next); }
    }
    forall other | other in after && other !in queue' ensures Uses(schemas, other) <= after {
      if other != name { InFront(queue, other); }
    }
  }

  // Terminates with exactly the reachable names.
  method Explore(schemas: map<string, Json>, roots: set<string>) returns (reachable: set<string>)
    ensures forall name :: name in reachable <==> Reachable(schemas, roots, name)
  {
    reachable := roots;
    var queue := SetToSeq(roots);
    forall name | name in roots ensures Reachable(schemas, roots, name) { ReachableRoot(schemas, roots, name); }
    while queue != []
      invariant Explored(schemas, roots, reachable, queue)
      decreases Universe(schemas, roots) - reachable, |queue|
    {
      ghost var before, queued := reachable, queue;
      var name := queue[|queue| - 1];
      queue := queue[..|queue| - 1];
      if name in schemas {
        reachable, queue := Enqueue(References(schemas[name]), reachable, queue);
      }
      ExploredStep(schemas, roots, before, queued, reachable, queue);
    }
    ReachableIsLeast(schemas, roots, reachable);
  }

  // ---------------------------------------------------------------------------
  // The document, pruned in place
  // ---------------------------------------------------------------------------

  function PathsOf(root: map<string, Json>): Json {
    if "paths" in root then root["paths"] else Obj(map[])
  }

  // The component schemas, when the document has them as objects.
  function SchemasOf(root: map<string, Json>): Option<map<string, Json>> {
    if "components" in root && root["components"].Obj? && "schemas" in root["components"].fields
       && root["components"].fields["schemas"].Obj?
    then Some(root["components"].fields["schemas"].fields) else None
  }

  function WithSchemas(root: map<string, Json>, schemas: map<string, Json>): map<string, Json>
    requires SchemasOf(root).Some?
  {
    root["components" := Obj(root["components"].fields["schemas" := Obj(schemas)])]
  }

  ghost predicate Pruned(before: map<string, Json>, after: map<string, Json>) {
    match SchemasOf(before)
    case None => after == before
    case Some(schemas) =>
      && SchemasOf(after).Some?
      && after == WithSchemas(before, SchemasOf(after).value)
      && (forall name :: name in SchemasOf(after).value <==>
            name in schemas && Reachable(schemas, References(PathsOf(before)), name))
      && (forall name | name in SchemasOf(after).value :: SchemasOf(after).value[name] == schemas[name])
  }

  class OpenApiDocument {
    var root: map<string, Json>

    constructor (root: map<string, Json>)
      ensures this.root == root
    {
      this.root := root;
    }

    // Keeps exactly the component schemas reachable from the paths; nothing else changes.
    method PruneComponents()
      modifies this
      ensures Pruned(old(root), root)
    {
      var found := SchemasOf(root);
      if found.None? {
        return;
      }
      var schemas := found.value;
      var reachable := Explore(schemas, References(PathsOf(root)));
      var kept := map name | name in schemas && name in reachable :: schemas[name];
      root := WithSchemas(root, kept);
    }
  }

  // ---------------------------------------------------------------------------
  // Which references keep resolving
  // ---------------------------------------------------------------------------

  // The document without its component schemas and its paths.
  ghost function Elsewhere(root: map<string, Json>): Json
    requires SchemasOf(root).Some?
  {
    Obj((root - {"paths", "components"})["components" := Obj(root["components"].fields - {"schemas"})])
  }

  // Every reference of the pruned document to a component that existed before still resolves.
  ghost predicate StillResolves(before: map<string, Json>, after: map<string, Json>)
    requires SchemasOf(before).Some? && SchemasOf(after).Some?
  {
    forall name | name in References(Obj(after)) && name in SchemasOf(before).value :: name in SchemasOf(after).value
  }

  lemma ComponentsSplit(root: map<string, Json>, name: string)
    requires SchemasOf(root).Some?
    ensures name in References(root["components"]) <==>
      || name in References(Obj(SchemasOf(root).value))
      || name in References(Obj(root["components"].fields - {"schemas"}))
  {
    var components := root["components"].fields;
    var others := components - {"schemas"};
    assert RefTarget(Obj(components)) == RefTarget(Obj(others));
    if name in References(root["components"]) && name !in RefTarget(Obj(components)) {
      var k :| k in components && name in References(components[k]);
      assert k != "schemas" ==> k in others;
    }
    if name in References(Obj(others)) && name !in RefTarget(Obj(others)) {
      var k :| k in others && name in References(others[k]);
      assert k in components && components[k] == others[k];
    }
  }

  // The document nests its references in its paths, its component schemas, and elsewhere.
  lemma ReferencesSplit(root: map<string, Json>, name: string)
    requires SchemasOf(root).Some?
    ensures name in References(Obj(root)) <==>
      || name in References(PathsOf(root))
      || name in References(Obj(SchemasOf(root).value))
      || name in References(Elsewhere(root))
  {
    var rest := Elsewhere(root).fields;
    ComponentsSplit(root, name);
    assert "components" in rest && rest["components"] == Obj(root["components"].fields - {"schemas"});
    assert RefTarget(Obj(root)) == RefTarget(Elsewhere(root));
    if name in References(Obj(root)) && name !in RefTarget(Obj(root)) {
      var k :| k in root && name in References(root[k]);
      assert k != "paths" && k != "components" ==> k in rest;
    }
    if name in References(Elsewhere(root)) && name !in RefTarget(Elsewhere(root)) {
      var k :| k in rest && name in References(rest[k]);
      assert k != "components" ==> k in root && root[k] == rest[k];
    }
  }

  lemma SchemaReferences(schemas: map<string, Json>, name: string)
    ensures name in References(Obj(schemas)) <==>
      name in RefTarget(Obj(schemas)) || exists k :: k in schemas && name in References(schemas[k])
  {
  }

  lemma SameElsewhere(before: map<string, Json>, after: map<string, Json>)
    requires SchemasOf(before).Some? && Pruned(before, after)
    ensures PathsOf(after) == PathsOf(before) && Elsewhere(after) == Elsewhere(before)
  {
    assert after["components"].fields - {"schemas"} == before["components"].fields - {"schemas"};
    assert after - {"paths", "components"} == before - {"paths", "components"};
  }

  // Pruning follows references from the paths only. So it breaks no reference exactly when the
  // rest of the document - and the schema object itself, should it hold a reference under the
  // name "$ref" and keep it - names no component schema that the paths do not reach.
  lemma PruningKeepsReferences(before: map<string, Json>, after: map<string, Json>)
    requires SchemasOf(before).Some? && Pruned(before, after)
    ensures var schemas, roots := SchemasOf(before).value, References(PathsOf(before));
      StillResolves(before, after) <==>
      && (forall name | name in References(Elsewhere(before)) && name in schemas :: Reachable(schemas, roots, name))
      && (Reachable(schemas, roots, "$ref") ==>
            forall name | name in RefTarget(Obj(schemas)) && name in schemas :: Reachable(schemas, roots, name))
  {
    var schemas, kept := SchemasOf(before).value, SchemasOf(after).value;
    var roots := References(PathsOf(before));
    SameElsewhere(before, after);
    assert RefTarget(Obj(kept)) == if Reachable(schemas, roots, "$ref") then RefTarget(Obj(schemas)) else {};
    forall name | name in References(Obj(after)) && name in schemas
      ensures name in kept || name in References(Elsewhere(before)) || name in RefTarget(Obj(kept))
    {
      ReferencesSplit(after, name);
      SchemaReferences(kept, name);
      if name in roots {
        ReachableRoot(schemas, roots, name);
      } else if name in References(Obj(kept)) && name !in RefTarget(Obj(kept)) {
        var k :| k in kept && name in References(kept[k]);
        ReachableStep(schemas, roots, k, name);
      }
    }
    forall name | name in References(Elsewhere(before)) || name in RefTarget(Obj(kept)) ensures name in References(Obj(after)) {
      ReferencesSplit(after, name);
      SchemaReferences(kept, name);
    }
  }

  const REFERENCE_TO_A := Obj(map["$ref" := Str("#/components/schemas/A")])

  // Its paths use no schema; a response component does.
  const DANGLING: map<string, Json> := map[
    "paths" := Obj(map["/health" := Obj(map["get" := Obj(map[])])]),
    "components" := Obj(map[
      "schemas" := Obj(map["A" := Obj(map[])]),
      "responses" := Obj(map["Failure" := Obj(map["schema" := REFERENCE_TO_A])])])]

  lemma InField(fields: map<string, Json>, k: string, name: string)
    requires k in fields && name in References(fields[k])
    ensures name in References(Obj(fields))
  {
  }

  lemma DanglingReference()
    ensures References(PathsOf(DANGLING)) == {} && "A" in References(Elsewhere(DANGLING))
  {
    var operation := Obj(map["get" := Obj(map[])]);
    assert References(Obj(map[])) == {};
    assert References(operation) == {};
    assert References(Obj(map["/health" := operation])) == {};
    assert PREFIX + "A" == "#/components/schemas/A" && (PREFIX + "A")[|PREFIX|..] == "A";
    assert RefTarget(REFERENCE_TO_A) == {"A"};
    InField(map["schema" := REFERENCE_TO_A], "schema", "A");
    InField(map["Failure" := Obj(map["schema" := REFERENCE_TO_A])], "Failure", "A");
    var others := DANGLING["components"].fields - {"schemas"};
    assert others["responses"] == DANGLING["components"].fields["responses"];
    InField(others, "responses", "A");
    InField(Elsewhere(DANGLING).fields, "components", "A");
  }

  // A response component that refers to a schema no path reaches is left dangling.
  lemma PruningCanBreakReferences()
    ensures SchemasOf(DANGLING).Some? && Pruned(DANGLING, WithSchemas(DANGLING, map[]))
    ensures !StillResolves(DANGLING, WithSchemas(DANGLING, map[]))
  {
    var schemas := SchemasOf(DANGLING).value;
    DanglingReference();
    assert forall name :: !Reachable(schemas, {}, name);
    PruningKeepsReferences(DANGLING, WithSchemas(DANGLING, map[]));
    assert "A" in schemas;
  }
}
