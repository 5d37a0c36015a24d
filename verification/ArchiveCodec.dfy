// A codec that meets everything the archive model assumes of JSON and of the record schemas, so
// that what is proved under these assumptions is about something.
module ArchiveCodec {
  import opened Common
  import opened Json
  import opened MemoryModels
  import opened Archive

  // ---------------------------------------------------------------------------
  // Documents as symbols: each construct says how long it is
  // ---------------------------------------------------------------------------

  function Codes(text: string): seq<int> {
    if text == "" then [] else [text[0] as int] + Codes(text[1..])
  }

  function Text(text: string): seq<int> {
    [|text|] + Codes(text)
  }

  ghost function ListOf(keys: set<string>): (r: seq<string>)
    ensures forall k :: k in r <==> k in keys
    decreases |keys|
  {
    if keys == {} then []
    else
      var k :| k in keys;
      [k] + ListOf(keys - {k})
  }

  ghost function Symbols(j: Json): seq<int>
    decreases j, 1
  {
    match j
    case Null => [0]
    case Bool(b) => [1, if b then 1 else 0]
    case Int(n) => [2, n]
    case Float(x) => [3, x]
    case Str(text) => [4] + Text(text)
    case Arr(items) => [5, |items|] + Items(items)
    case Obj(fields) => [6, |ListOf(fields.Keys)|] + Fields(j, ListOf(fields.Keys))
  }

  ghost function Items(items: seq<Json>): seq<int>
    decreases items, 0
  {
    if items == [] then [] else Symbols(items[0]) + Items(items[1..])
  }

  ghost function Fields(j: Json, keys: seq<string>): seq<int>
    requires j.Obj? && forall k | k in keys :: k in j.fields
    decreases j, 0, |keys|
  {
    if keys == [] then [] else Text(keys[0]) + Symbols(j.fields[keys[0]]) + Fields(j, keys[1..])
  }

  lemma {:induction false} CodesUnique(a: string, b: string, x: seq<int>, y: seq<int>)
    requires |a| == |b| && Codes(a) + x == Codes(b) + y
    ensures a == b && x == y
  {
    if a == "" {
      assert Codes(a) + x == x && Codes(b) + y == y;
    } else {
      var s, t := Codes(a) + x, Codes(b) + y;
      assert s[0] == a[0] as int && t[0] == b[0] as int;
      assert s[1..] == Codes(a[1..]) + x && t[1..] == Codes(b[1..]) + y;
      CodesUnique(a[1..], b[1..], x, y);
      assert a == [a[0]] + a[1..] && b == [b[0]] + b[1..];
    }
  }

  lemma TextUnique(a: string, b: string, x: seq<int>, y: seq<int>)
    requires Text(a) + x == Text(b) + y
    ensures a == b && x == y
  {
    var s, t := Text(a) + x, Text(b) + y;
    assert s[0] == |a| && t[0] == |b|;
    assert s[1..] == Codes(a) + x && t[1..] == Codes(b) + y;
    CodesUnique(a, b, x, y);
  }

  function Tag(j: Json): int {
    match j
    case Null => 0
    case Bool(_) => 1
    case Int(_) => 2
    case Float(_) => 3
    case Str(_) => 4
    case Arr(_) => 5
    case Obj(_) => 6
  }

  lemma TagFirst(j: Json)
    ensures Symbols(j) != [] && Symbols(j)[0] == Tag(j)
  {
  }

  lemma SameTag(a: Json, b: Json, x: seq<int>, y: seq<int>)
    requires Symbols(a) + x == Symbols(b) + y
    ensures Tag(a) == Tag(b)
  {
    TagFirst(a);
    TagFirst(b);
    assert (Symbols(a) + x)[0] == Symbols(a)[0] && (Symbols(b) + y)[0] == Symbols(b)[0];
  }

  // Two equal symbols before what follows.
  lemma Strip(a: int, b: int, c: int, d: int, x: seq<int>, y: seq<int>)
    requires [a, b] + x == [c, d] + y
    ensures b == d && x == y
  {
    assert ([a, b] + x)[1] == b && ([c, d] + y)[1] == d;
    assert ([a, b] + x)[2..] == x && ([c, d] + y)[2..] == y;
  }

  lemma ScalarUnique(a: Json, b: Json, x: seq<int>, y: seq<int>)
    requires Symbols(a) + x == Symbols(b) + y && Tag(a) == Tag(b) && !a.Arr? && !a.Obj?
    ensures a == b && x == y
  {
    match a
    case Null => assert ([0] + x)[1..] == x && ([0] + y)[1..] == y;
    case Bool(p) => Strip(1, if p then 1 else 0, 1, if b.truth then 1 else 0, x, y);
    case Int(n) => Strip(2, n, 2, b.number, x, y);
    case Float(d) => Strip(3, d, 3, b.double, x, y);
    case Str(text) =>
      assert ([4] + Text(text) + x)[1..] == Text(text) + x && ([4] + Text(b.text) + y)[1..] == Text(b.text) + y;
      TextUnique(text, b.text, x, y);
  }

  lemma {:induction false} ArrUnique(a: Json, b: Json, x: seq<int>, y: seq<int>)
    requires a.Arr? && b.Arr? && Symbols(a) + x == Symbols(b) + y
    ensures a == b && x == y
    decreases a, 1
  {
    assert Symbols(a) + x == [5, |a.items|] + (Items(a.items) + x);
    assert Symbols(b) + y == [5, |b.items|] + (Items(b.items) + y);
    Strip(5, |a.items|, 5, |b.items|, Items(a.items) + x, Items(b.items) + y);
    ItemsUnique(a.items, b.items, x, y);
  }

  lemma {:induction false} ObjUnique(a: Json, b: Json, x: seq<int>, y: seq<int>)
    requires a.Obj? && b.Obj? && Symbols(a) + x == Symbols(b) + y
    ensures a == b && x == y
    decreases a, 1
  {
    var ka, kb := ListOf(a.fields.Keys), ListOf(b.fields.Keys);
    assert Symbols(a) + x == [6, |ka|] + (Fields(a, ka) + x);
    assert Symbols(b) + y == [6, |kb|] + (Fields(b, kb) + y);
    Strip(6, |ka|, 6, |kb|, Fields(a, ka) + x, Fields(b, kb) + y);
    FieldsUnique(a, b, ka, kb, x, y);
    SameFields(a.fields, b.fields, ka);
  }

  lemma SameFields(m: map<string, Json>, n: map<string, Json>, keys: seq<string>)
    requires forall k :: k in keys <==> k in m
    requires forall k :: k in keys <==> k in n
    requires forall k | k in keys :: m[k] == n[k]
    ensures m == n
  {
  }

  // No document's symbols are the beginning of another's.
  lemma {:induction false} SymbolsUnique(a: Json, b: Json, x: seq<int>, y: seq<int>)
    requires Symbols(a) + x == Symbols(b) + y
    ensures a == b && x == y
    decreases a, 2
  {
    SameTag(a, b, x, y);
    if a.Arr? {
      ArrUnique(a, b, x, y);
    } else if a.Obj? {
      ObjUnique(a, b, x, y);
    } else {
      ScalarUnique(a, b, x, y);
    }
  }

  lemma {:induction false} ItemsUnique(a: seq<Json>, b: seq<Json>, x: seq<int>, y: seq<int>)
    requires |a| == |b| && Items(a) + x == Items(b) + y
    ensures a == b && x == y
    decreases a, 0
  {
    if a == [] {
      assert Items(a) + x == x && Items(b) + y == y;
    } else {
      var u, v := Items(a[1..]) + x, Items(b[1..]) + y;
      assert Items(a) + x == Symbols(a[0]) + u && Items(b) + y == Symbols(b[0]) + v;
      SymbolsUnique(a[0], b[0], u, v);
      ItemsUnique(a[1..], b[1..], x, y);
      assert a == [a[0]] + a[1..] && b == [b[0]] + b[1..];
    }
  }

  lemma {:induction false} FieldsUnique(a: Json, b: Json, ka: seq<string>, kb: seq<string>, x: seq<int>, y: seq<int>)
    requires a.Obj? && b.Obj? && |ka| == |kb|
    requires (forall k | k in ka :: k in a.fields) && (forall k | k in kb :: k in b.fields)
    requires Fields(a, ka) + x == Fields(b, kb) + y
    ensures ka == kb && x == y && forall k | k in ka :: a.fields[k] == b.fields[k]
    decreases a, 0, |ka|
  {
    if ka == [] {
      assert Fields(a, ka) + x == x && Fields(b, kb) + y == y;
    } else {
      var u, v := Fields(a, ka[1..]) + x, Fields(b, kb[1..]) + y;
      var p, q := Symbols(a.fields[ka[0]]) + u, Symbols(b.fields[kb[0]]) + v;
      assert Fields(a, ka) + x == Text(ka[0]) + p && Fields(b, kb) + y == Text(kb[0]) + q;
      TextUnique(ka[0], kb[0], p, q);
      SymbolsUnique(a.fields[ka[0]], b.fields[kb[0]], u, v);
      FieldsUnique(a, b, ka[1..], kb[1..], x, y);
      assert ka == [ka[0]] + ka[1..] && kb == [kb[0]] + kb[1..];
    }
  }

  // ---------------------------------------------------------------------------
  // Symbols as bytes: digits only, so a line never breaks
  // ---------------------------------------------------------------------------

  const ZERO_BYTE: byte := 48
  const ONE_BYTE: byte := 49

  function Natural(n: int): nat {
    if n >= 0 then 2 * n else -2 * n - 1
  }

  function Unary(n: nat): (r: seq<byte>)
    ensures LF !in r && CR !in r
  {
    if n == 0 then [ZERO_BYTE] else [ONE_BYTE] + Unary(n - 1)
  }

  function Bytes(symbols: seq<int>): (r: seq<byte>)
    ensures LF !in r && CR !in r
  {
    if symbols == [] then [] else Unary(Natural(symbols[0])) + Bytes(symbols[1..])
  }

  lemma {:induction false} UnaryUnique(m: nat, n: nat, x: seq<byte>, y: seq<byte>)
    requires Unary(m) + x == Unary(n) + y
    ensures m == n && x == y
  {
    var s, t := Unary(m) + x, Unary(n) + y;
    assert s[0] == Unary(m)[0] && t[0] == Unary(n)[0];
    if m == 0 {
      assert s[1..] == x && t[1..] == y;
    } else {
      assert s[1..] == Unary(m - 1) + x && t[1..] == Unary(n - 1) + y;
      UnaryUnique(m - 1, n - 1, x, y);
    }
  }

  lemma {:induction false} BytesUnique(a: seq<int>, b: seq<int>)
    requires Bytes(a) == Bytes(b)
    ensures a == b
  {
    if a != [] && b != [] {
      UnaryUnique(Natural(a[0]), Natural(b[0]), Bytes(a[1..]), Bytes(b[1..]));
      BytesUnique(a[1..], b[1..]);
      assert a == [a[0]] + a[1..] && b == [b[0]] + b[1..];
    }
  }

  ghost function Canonical(j: Json): (r: seq<byte>)
    ensures LF !in r && CR !in r
  {
    Bytes(Symbols(j))
  }

  lemma CanonicalUnique(a: Json, b: Json)
    requires Canonical(a) == Canonical(b)
    ensures a == b
  {
    BytesUnique(Symbols(a), Symbols(b));
    assert Symbols(a) + [] == Symbols(b) + [];
    SymbolsUnique(a, b, [], []);
  }

  ghost function Loads(data: seq<byte>): Option<Json> {
    if exists j :: Canonical(j) == data then
      var j :| Canonical(j) == data;
      Some(j)
    else None
  }

  lemma ReadsBack(j: Json)
    ensures Loads(Canonical(j)) == Some(j)
  {
    CanonicalUnique(Loads(Canonical(j)).value, j);
  }

  // ---------------------------------------------------------------------------
  // The record schemas
  // ---------------------------------------------------------------------------

  function OptionalText(value: Option<string>): Json {
    if value.None? then Null else Str(value.value)
  }

  function ScopeNumber(scope: MemoryScope): int {
    match scope case Private => 0 case TenantKnowledge => 1
  }

  function StateNumber(state: MemoryState): int {
    match state case Active => 0 case Superseded => 1 case ErasurePending => 2 case Erased => 3
  }

  function KindNumber(kind: MemoryKind): int {
    match kind case Explicit => 0 case Preference => 1 case Constraint => 2 case Outcome => 3
  }

  function StatusNumber(status: CandidateStatus): int {
    match status
    case Submitted => 0
    case Approved => 1
    case Rejected => 2
    case Publishing => 3
    case Published => 4
    case Failed => 5
  }

  function Texts(texts: seq<string>): seq<Json> {
    seq(|texts|, i requires 0 <= i < |texts| => Str(texts[i]))
  }

  lemma TextsUnique(a: seq<string>, b: seq<string>)
    requires Texts(a) == Texts(b)
    ensures a == b
  {
    assert |a| == |Texts(a)| == |b|;
    forall i | 0 <= i < |a| ensures a[i] == b[i] {
      assert Texts(a)[i] == Texts(b)[i];
    }
  }

  const ITEM_FIELDS: set<string> :=
    {"id", "owner", "scope", "content", "kind", "confidence", "actor", "source", "created_at", "state", "supersedes"}

  function DumpItem(m: MemoryItem): map<string, Json> {
    map["id" := Str(m.id), "owner" := OptionalText(m.owner), "scope" := Int(ScopeNumber(m.scope)),
        "content" := Str(m.content), "kind" := Int(KindNumber(m.kind)), "confidence" := Float(m.confidence),
        "actor" := Str(m.actorId), "source" := Str(m.source), "created_at" := Int(m.createdAt),
        "state" := Int(StateNumber(m.state)), "supersedes" := OptionalText(m.supersedes)]
  }

  const CANDIDATE_FIELDS: set<string> :=
    {"id", "claim", "confidence", "proposer", "sources", "duplicates", "conflicts", "status", "created_at", "reviewed_by",
     "rationale"}

  function DumpCandidate(v: KnowledgeCandidateView): map<string, Json> {
    map["id" := Str(v.id), "claim" := Str(v.claim), "confidence" := Float(v.confidence), "proposer" := Str(v.proposerId),
        "sources" := Int(v.sourceCount), "duplicates" := Arr(Texts(v.duplicates)), "conflicts" := Arr(Texts(v.conflicts)),
        "status" := Int(StatusNumber(v.status)), "created_at" := Int(v.createdAt),
        "reviewed_by" := OptionalText(v.reviewedBy), "rationale" := OptionalText(v.rationale)]
  }

  const TOMBSTONE_FIELDS: set<string> :=
    {"id", "memory", "requester", "owner", "reviewed_by", "created_at", "completed_at"}

  function DumpTombstone(t: ErasureTombstone): map<string, Json> {
    map["id" := Str(t.id), "memory" := Str(t.memoryId), "requester" := Str(t.requesterId), "owner" := Str(t.ownerId),
        "reviewed_by" := Str(t.reviewedBy), "created_at" := Int(t.createdAt), "completed_at" := Int(t.completedAt)]
  }

  lemma ItemTexts(a: MemoryItem, b: MemoryItem)
    requires DumpItem(a) == DumpItem(b)
    ensures a.id == b.id && a.owner == b.owner && a.content == b.content
    ensures a.actorId == b.actorId && a.source == b.source && a.supersedes == b.supersedes
  {
    var m, n := DumpItem(a), DumpItem(b);
    assert m["id"] == n["id"] && m["owner"] == n["owner"] && m["content"] == n["content"];
    assert m["actor"] == n["actor"] && m["source"] == n["source"] && m["supersedes"] == n["supersedes"];
  }

  lemma ItemNumbers(a: MemoryItem, b: MemoryItem)
    requires DumpItem(a) == DumpItem(b)
    ensures a.scope == b.scope && a.kind == b.kind && a.confidence == b.confidence
    ensures a.createdAt == b.createdAt && a.state == b.state
  {
    var m, n := DumpItem(a), DumpItem(b);
    assert m["scope"] == n["scope"] && m["kind"] == n["kind"] && m["confidence"] == n["confidence"];
    assert m["created_at"] == n["created_at"] && m["state"] == n["state"];
  }

  lemma ItemUnique(a: MemoryItem, b: MemoryItem)
    requires DumpItem(a) == DumpItem(b)
    ensures a == b
  {
    ItemTexts(a, b);
    ItemNumbers(a, b);
  }

  lemma CandidateTexts(a: KnowledgeCandidateView, b: KnowledgeCandidateView)
    requires DumpCandidate(a) == DumpCandidate(b)
    ensures a.id == b.id && a.claim == b.claim && a.proposerId == b.proposerId
    ensures a.reviewedBy == b.reviewedBy && a.rationale == b.rationale
  {
    var m, n := DumpCandidate(a), DumpCandidate(b);
    assert m["id"] == n["id"] && m["claim"] == n["claim"] && m["proposer"] == n["proposer"];
    assert m["reviewed_by"] == n["reviewed_by"] && m["rationale"] == n["rationale"];
  }

  lemma CandidateNumbers(a: KnowledgeCandidateView, b: KnowledgeCandidateView)
    requires DumpCandidate(a) == DumpCandidate(b)
    ensures a.confidence == b.confidence && a.sourceCount == b.sourceCount && a.status == b.status && a.createdAt == b.createdAt
  {
    var m, n := DumpCandidate(a), DumpCandidate(b);
    assert m["confidence"] == n["confidence"] && m["sources"] == n["sources"];
    assert m["status"] == n["status"] && m["created_at"] == n["created_at"];
  }

  lemma CandidateLists(a: KnowledgeCandidateView, b: KnowledgeCandidateView)
    requires DumpCandidate(a) == DumpCandidate(b)
    ensures a.duplicates == b.duplicates && a.conflicts == b.conflicts
  {
    var m, n := DumpCandidate(a), DumpCandidate(b);
    assert m["duplicates"] == n["duplicates"] && m["conflicts"] == n["conflicts"];
    TextsUnique(a.duplicates, b.duplicates);
    TextsUnique(a.conflicts, b.conflicts);
  }

  lemma CandidateUnique(a: KnowledgeCandidateView, b: KnowledgeCandidateView)
    requires DumpCandidate(a) == DumpCandidate(b)
    ensures a == b
  {
    CandidateTexts(a, b);
    CandidateNumbers(a, b);
    CandidateLists(a, b);
  }

  lemma TombstoneUnique(a: ErasureTombstone, b: ErasureTombstone)
    requires DumpTombstone(a) == DumpTombstone(b)
    ensures a == b
  {
    var m, n := DumpTombstone(a), DumpTombstone(b);
    assert m["id"] == n["id"] && m["memory"] == n["memory"] && m["requester"] == n["requester"] && m["owner"] == n["owner"];
    assert m["reviewed_by"] == n["reviewed_by"] && m["created_at"] == n["created_at"] && m["completed_at"] == n["completed_at"];
  }

  ghost function ReadItem(payload: map<string, Json>): Option<MemoryItem> {
    if exists m :: DumpItem(m) == payload then
      var m :| DumpItem(m) == payload;
      Some(m)
    else None
  }

  ghost function ReadCandidate(payload: map<string, Json>): Option<KnowledgeCandidateView> {
    if exists v :: DumpCandidate(v) == payload then
      var v :| DumpCandidate(v) == payload;
      Some(v)
    else None
  }

  ghost function ReadTombstone(payload: map<string, Json>): Option<ErasureTombstone> {
    if exists t :: DumpTombstone(t) == payload then
      var t :| DumpTombstone(t) == payload;
      Some(t)
    else None
  }

  lemma ItemsLawful()
    ensures LawfulSchema(Schema(ITEM_FIELDS, DumpItem, ReadItem), ValidMemoryItem)
  {
    forall m: MemoryItem ensures DumpItem(m).Keys == ITEM_FIELDS && ReadItem(DumpItem(m)) == Some(m) {
      ItemUnique(ReadItem(DumpItem(m)).value, m);
    }
  }

  lemma CandidatesLawful()
    ensures LawfulSchema(Schema(CANDIDATE_FIELDS, DumpCandidate, ReadCandidate), ValidCandidate)
  {
    forall v: KnowledgeCandidateView ensures DumpCandidate(v).Keys == CANDIDATE_FIELDS && ReadCandidate(DumpCandidate(v)) == Some(v) {
      CandidateUnique(ReadCandidate(DumpCandidate(v)).value, v);
    }
  }

  lemma TombstonesLawful()
    ensures LawfulSchema(Schema(TOMBSTONE_FIELDS, DumpTombstone, ReadTombstone), ValidTombstone)
  {
    forall t: ErasureTombstone ensures DumpTombstone(t).Keys == TOMBSTONE_FIELDS && ReadTombstone(DumpTombstone(t)) == Some(t) {
      TombstoneUnique(ReadTombstone(DumpTombstone(t)).value, t);
    }
  }

  // The assumptions of the archive theorems can be met.
  lemma LawfulCodecExists()
    ensures exists c: Codec :: Lawful(c)
  {
    var c := Codec(Canonical, Loads, _ => "", (_, _) => false, Schema(ITEM_FIELDS, DumpItem, ReadItem),
                   Schema(CANDIDATE_FIELDS, DumpCandidate, ReadCandidate), Schema(TOMBSTONE_FIELDS, DumpTombstone, ReadTombstone));
    forall j: Json ensures c.loads(c.canonical(j)) == Some(j) && Unbroken(c.canonical(j)) {
      ReadsBack(j);
    }
    ItemsLawful();
    CandidatesLawful();
    TombstonesLawful();
    assert Lawful(c);
  }
}
