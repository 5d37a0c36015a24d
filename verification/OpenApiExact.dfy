// What the export keeps, told by the keys and references of the document alone.
module OpenApiExact {
  import opened Common
  import opened Json
  import opened OpenApi

  // A Reference Object to a component schema: its "$ref" is the fragment "#/components/schemas/"
  // and the name.
  predicate Names(part: Json, name: string) {
    part.Obj? && "$ref" in part.fields && part.fields["$ref"] == Str("#/components/schemas/" + name)
  }

  lemma NamesItsTarget(part: Json, name: string)
    ensures name in RefTarget(part) <==> Names(part, name)
  {
    if part.Obj? && "$ref" in part.fields && part.fields["$ref"].Str? {
      var text := part.fields["$ref"].text;
      assert (PREFIX + name)[|PREFIX|..] == name;
      if PREFIX <= text { assert text == PREFIX + text[|PREFIX|..]; }
    }
  }

  // The collected names are exactly those that some part of the value, at any depth, refers to.
  lemma CollectsExactly(value: Json, name: string)
    ensures name in References(value) <==> exists part :: Within(part, value) && Names(part, name)
  {
    ReferencesExactly(value, name);
    if part :| Within(part, value) && name in RefTarget(part) { NamesItsTarget(part, name); }
    if part :| Within(part, value) && Names(part, name) { NamesItsTarget(part, name); }
  }

  ghost predicate Mentions(value: Json, name: string) {
    exists part :: Within(part, value) && Names(part, name)
  }

  // A chain of references from the paths to the name, each through a schema.
  ghost predicate Leads(root: map<string, Json>, schemas: map<string, Json>, chain: seq<string>, name: string) {
    && chain != [] && chain[|chain| - 1] == name
    && "paths" in root && Mentions(root["paths"], chain[0])
    && forall i | 0 <= i < |chain| - 1 :: chain[i] in schemas && Mentions(schemas[chain[i]], chain[i + 1])
  }

  lemma NothingMentioned(name: string)
    ensures !Mentions(Obj(map[]), name)
  {
    assert References(Obj(map[])) == {};
    CollectsExactly(Obj(map[]), name);
  }

  lemma LinkExactly(schemas: map<string, Json>, name: string, next: string)
    ensures next in Uses(schemas, name) <==> name in schemas && Mentions(schemas[name], next)
  {
    if name in schemas { CollectsExactly(schemas[name], next); }
  }

  lemma ChainLeads(root: map<string, Json>, schemas: map<string, Json>, chain: seq<string>)
    requires chain != []
    ensures Chain(schemas, References(PathsOf(root)), chain) <==> Leads(root, schemas, chain, chain[|chain| - 1])
  {
    CollectsExactly(PathsOf(root), chain[0]);
    NothingMentioned(chain[0]);
    assert chain[0] in References(PathsOf(root)) <==> "paths" in root && Mentions(root["paths"], chain[0]);
    forall i | 0 <= i < |chain| - 1
      ensures chain[i + 1] in Uses(schemas, chain[i]) <==> chain[i] in schemas && Mentions(schemas[chain[i]], chain[i + 1])
    {
      LinkExactly(schemas, chain[i], chain[i + 1]);
    }
    if Chain(schemas, References(PathsOf(root)), chain) {
      forall i | 0 <= i < |chain| - 1 ensures chain[i] in schemas && Mentions(schemas[chain[i]], chain[i + 1]) {
        assert chain[i + 1] in Uses(schemas, chain[i]);
      }
    }
    if Leads(root, schemas, chain, chain[|chain| - 1]) {
      forall i | 0 <= i < |chain| - 1 ensures chain[i + 1] in Uses(schemas, chain[i]) {
        assert chain[i] in schemas && Mentions(schemas[chain[i]], chain[i + 1]);
      }
    }
  }

  lemma ReachedByLeading(root: map<string, Json>, schemas: map<string, Json>, name: string)
    ensures Reachable(schemas, References(PathsOf(root)), name) <==> exists chain :: Leads(root, schemas, chain, name)
  {
    if chain :| Chain(schemas, References(PathsOf(root)), chain) && chain[|chain| - 1] == name { ChainLeads(root, schemas, chain); }
    if chain :| Leads(root, schemas, chain, name) { ChainLeads(root, schemas, chain); }
  }

  // Of the object under "components", "schemas" the entries are kept to which references lead from
  // what lies under "paths", and the document is otherwise unchanged; without such an object it is
  // unchanged altogether.
  lemma PrunedExactly(before: map<string, Json>, after: map<string, Json>)
    requires Pruned(before, after)
    ensures if "components" in before && before["components"].Obj? && "schemas" in before["components"].fields
               && before["components"].fields["schemas"].Obj?
            then
              var schemas := before["components"].fields["schemas"].fields;
              && "components" in after && after["components"].Obj? && "schemas" in after["components"].fields
              && after["components"].fields["schemas"].Obj?
              && var kept := after["components"].fields["schemas"].fields;
                 && after == before["components" := Obj(before["components"].fields["schemas" := Obj(kept)])]
                 && (forall name | name in kept :: name in schemas && kept[name] == schemas[name])
                 && (forall name | name in schemas :: name in kept <==> exists chain :: Leads(before, schemas, chain, name))
            else after == before
  {
    if SchemasOf(before).Some? {
      forall name | name in SchemasOf(before).value
        ensures Reachable(SchemasOf(before).value, References(PathsOf(before)), name)
          <==> exists chain :: Leads(before, SchemasOf(before).value, chain, name)
      {
        ReachedByLeading(before, SchemasOf(before).value, name);
      }
    }
  }
}
