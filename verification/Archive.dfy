// The Memory Archive codec: line framing, per-record and whole-archive checksums, record
// grouping and validation. JSON text, SHA-256 and the record schemas are parameters.
module Archive {
  import opened Common
  import opened Json
  import opened MemoryModels

  const LF: byte := 10
  const CR: byte := 13

  const VERSION := 2

  datatype Scope = PrivateScope | TenantScope

  datatype RecordType = MemoryItemRecord | GovernanceRecord | TombstoneRecord

  // How one record type is written as a JSON object and read back.
  datatype Schema<!T> = Schema(
    fields: set<string>,
    dump: T -> map<string, Json>,
    validate: map<string, Json> -> Option<T>)

  datatype Codec = Codec(
    canonical: Json -> seq<byte>,
    loads: seq<byte> -> Option<Json>,
    sha256: seq<byte> -> string,
    equalsInt: (Double, int) -> bool,
    items: Schema<MemoryItem>,
    candidates: Schema<KnowledgeCandidateView>,
    tombstones: Schema<ErasureTombstone>)

  datatype Decoded = Decoded(
    items: seq<MemoryItem>,
    candidates: seq<KnowledgeCandidateView>,
    tombstones: seq<ErasureTombstone>)

  datatype ArchiveError =
    | IncompleteArchive
    | NotJsonLines
    | NotObjects
    | UnsupportedManifest
    | ChecksumMismatch
    | UnsupportedRecord
    | RecordChecksumMismatch
    | SchemaMismatch
    | InvalidModel
    | InvalidRecord
    | DuplicateMemoryIds
    | DuplicateCandidateIds

  // ---------------------------------------------------------------------------
  // Lines
  // ---------------------------------------------------------------------------

  function LineEnd(data: seq<byte>): (n: nat)
    ensures n <= |data|
    ensures forall i | 0 <= i < n :: data[i] != LF && data[i] != CR
    ensures n < |data| ==> data[n] == LF || data[n] == CR
  {
    if data == [] || data[0] == LF || data[0] == CR then 0 else 1 + LineEnd(data[1..])
  }

  // Splits at LF, CR LF and CR; a final line end opens no further line.
  function SplitLines(data: seq<byte>): seq<seq<byte>> {
    if data == [] then []
    else
      var n := LineEnd(data);
      if n == |data| then [data]
      else if data[n] == CR && n + 1 < |data| && data[n + 1] == LF then [data[..n]] + SplitLines(data[n + 2..])
      else [data[..n]] + SplitLines(data[n + 1..])
  }

  function Terminated(lines: seq<seq<byte>>, end: seq<byte>): seq<byte> {
    if lines == [] then [] else lines[0] + end + Terminated(lines[1..], end)
  }

  ghost predicate Unbroken(line: seq<byte>) {
    LF !in line && CR !in line
  }

  ghost predicate IsLineEnd(end: seq<byte>) {
    end == [LF] || end == [CR, LF] || end == [CR]
  }

  lemma LineEndFound(line: seq<byte>, rest: seq<byte>)
    requires Unbroken(line) && rest != [] && (rest[0] == LF || rest[0] == CR)
    ensures LineEnd(line + rest) == |line|
  {
    if line == [] {
      assert line + rest == rest;
    } else {
      assert (line + rest)[1..] == line[1..] + rest;
      LineEndFound(line[1..], rest);
    }
  }

  lemma SplitOne(line: seq<byte>, end: seq<byte>, rest: seq<byte>)
    requires Unbroken(line) && IsLineEnd(end)
    requires end == [CR] && rest != [] ==> rest[0] != LF
    ensures SplitLines(line + end + rest) == [line] + SplitLines(rest)
  {
    var data := line + end + rest;
    assert data == line + (end + rest);
    LineEndFound(line, end + rest);
    assert data[..|line|] == line && data[|line| + |end|..] == rest;
  }

  // Framing unbroken lines with any one of the line ends and splitting gives them back.
  lemma {:induction false} SplitTerminated(lines: seq<seq<byte>>, end: seq<byte>)
    requires IsLineEnd(end) && forall line | line in lines :: Unbroken(line)
    ensures SplitLines(Terminated(lines, end)) == lines
    ensures lines != [] && end != [LF] ==> Terminated(lines, end) != [] && Terminated(lines, end)[0] != LF
  {
    if lines != [] {
      var rest := Terminated(lines[1..], end);
      SplitTerminated(lines[1..], end);
      SplitOne(lines[0], end, rest);
    }
  }

  // ---------------------------------------------------------------------------
  // Documents
  // ---------------------------------------------------------------------------

  function ScopeName(scope: Scope): string {
    match scope case PrivateScope => "private" case TenantScope => "tenant"
  }

  function TypeName(kind: RecordType): string {
    match kind
    case MemoryItemRecord => "memory_item"
    case GovernanceRecord => "governance_candidate"
    case TombstoneRecord => "erasure_tombstone"
  }

  function ParseType(value: Json): Option<RecordType> {
    if value == Str("memory_item") then Some(MemoryItemRecord)
    else if value == Str("governance_candidate") then Some(GovernanceRecord)
    else if value == Str("erasure_tombstone") then Some(TombstoneRecord)
    else None
  }

  function Manifest(scope: Scope): Json {
    Obj(map["type" := Str("manifest"), "format" := Str("memory-archive"),
            "version" := Int(VERSION), "scope" := Str(ScopeName(scope))])
  }

  function Footer(c: Codec, recordCount: int, payload: seq<byte>): Json {
    Obj(map["type" := Str("archive_checksum"), "algorithm" := Str("sha256"),
            "record_count" := Int(recordCount), "value" := Str(c.sha256(payload))])
  }

  // The program compares documents by value, where an integer also equals a double, or for 0 and
  // 1 a truth value, of the same value.
  predicate SameNumber(c: Codec, value: Json, number: int) {
    match value
    case Int(n) => n == number
    case Float(x) => c.equalsInt(x, number)
    case Bool(b) => number == if b then 1 else 0
    case _ => false
  }

  // Equal to a document whose single number is under `key`.
  predicate SameBut(c: Codec, document: Json, expected: Json, key: string)
    requires expected.Obj? && key in expected.fields && expected.fields[key].Int?
  {
    && document.Obj? && document.fields.Keys == expected.fields.Keys
    && SameNumber(c, document.fields[key], expected.fields[key].number)
    && document.fields[key := expected.fields[key]] == expected.fields
  }

  function Checksum(c: Codec, kind: RecordType, payload: map<string, Json>): Json {
    var input := Obj(map["record_type" := Str(TypeName(kind)), "payload" := Obj(payload)]);
    Obj(map["algorithm" := Str("sha256"), "value" := Str(c.sha256(c.canonical(input)))])
  }

  function Record(c: Codec, kind: RecordType, payload: map<string, Json>): Json {
    Obj(map["type" := Str("record"), "record_type" := Str(TypeName(kind)),
            "payload" := Obj(payload), "checksum" := Checksum(c, kind, payload)])
  }

  function Records(c: Codec, kind: RecordType, payloads: seq<map<string, Json>>): seq<Json> {
    seq(|payloads|, i requires 0 <= i < |payloads| => Record(c, kind, payloads[i]))
  }

  function Dumps<T>(schema: Schema<T>, values: seq<T>): seq<map<string, Json>> {
    seq(|values|, i requires 0 <= i < |values| => schema.dump(values[i]))
  }

  function Canonicals(c: Codec, documents: seq<Json>): seq<seq<byte>> {
    if documents == [] then [] else [c.canonical(documents[0])] + Canonicals(c, documents[1..])
  }

  function RecordDocuments(c: Codec, archive: Decoded): seq<Json> {
    Records(c, MemoryItemRecord, Dumps(c.items, archive.items))
    + Records(c, GovernanceRecord, Dumps(c.candidates, archive.candidates))
    + Records(c, TombstoneRecord, Dumps(c.tombstones, archive.tombstones))
  }

  function EncodedLines(c: Codec, scope: Scope, archive: Decoded): seq<seq<byte>> {
    var documents := [Manifest(scope)] + RecordDocuments(c, archive);
    var lines := Canonicals(c, documents);
    lines + [c.canonical(Footer(c, |documents| - 1, Terminated(lines, [LF])))]
  }

  // encode_archive, given the schema dumps of the records.
  function EncodeArchive(c: Codec, scope: Scope, archive: Decoded): seq<byte> {
    Terminated(EncodedLines(c, scope, archive), [LF])
  }

  // ---------------------------------------------------------------------------
  // Record validation
  // ---------------------------------------------------------------------------

  predicate IsSpace(ch: char) {
    || '\t' <= ch <= '\r' || '\U{1c}' <= ch <= ' ' || ch == '\U{85}' || ch == '\U{a0}'
    || ch == '\U{1680}' || '\U{2000}' <= ch <= '\U{200a}' || ch == '\U{2028}' || ch == '\U{2029}'
    || ch == '\U{202f}' || ch == '\U{205f}' || ch == '\U{3000}'
  }

  predicate NonBlank(text: string) {
    exists ch | ch in text :: !IsSpace(ch)
  }

  predicate ValidMemoryItem(item: MemoryItem) {
    && NonBlank(item.id) && NonBlank(item.content) && |item.content| <= 16_000
    && InUnitInterval(item.confidence)
    && NonBlank(item.actorId) && NonBlank(item.source)
    && (item.supersedes.Some? ==> NonBlank(item.supersedes.value))
  }

  predicate ValidCandidate(v: KnowledgeCandidateView) {
    && NonBlank(v.id) && NonBlank(v.claim) && |v.claim| <= 16_000
    && InUnitInterval(v.confidence)
    && NonBlank(v.proposerId) && v.sourceCount >= 0
    && var reviewed := v.reviewedBy.Some? || v.rationale.Some?;
    && (reviewed ==> v.reviewedBy.Some? && NonBlank(v.reviewedBy.value) && v.rationale.Some? && NonBlank(v.rationale.value))
    && (v.status == Submitted ==> !reviewed)
    && (v.status in {Approved, Rejected, Publishing, Published} ==> reviewed)
  }

  predicate ValidTombstone(t: ErasureTombstone) {
    && NonBlank(t.id) && NonBlank(t.memoryId) && NonBlank(t.requesterId)
    && NonBlank(t.ownerId) && NonBlank(t.reviewedBy) && t.createdAt <= t.completedAt
  }

  function MemoryIds(archive: Decoded): seq<string> {
    seq(|archive.items|, i requires 0 <= i < |archive.items| => archive.items[i].id)
    + seq(|archive.tombstones|, i requires 0 <= i < |archive.tombstones| => archive.tombstones[i].memoryId)
  }

  function CandidateIds(archive: Decoded): seq<string> {
    seq(|archive.candidates|, i requires 0 <= i < |archive.candidates| => archive.candidates[i].id)
  }

  predicate Distinct(ids: seq<string>) {
    |ids| == |set id | id in ids|
  }

  ghost predicate ValidArchive(archive: Decoded) {
    && (forall item | item in archive.items :: ValidMemoryItem(item))
    && (forall v | v in archive.candidates :: ValidCandidate(v))
    && (forall t | t in archive.tombstones :: ValidTombstone(t))
    && Distinct(MemoryIds(archive))
    && Distinct(CandidateIds(archive))
  }

  // ---------------------------------------------------------------------------
  // Decoding
  // ---------------------------------------------------------------------------

  function ValidateRecord(c: Codec, document: Json): Result<(RecordType, map<string, Json>), ArchiveError> {
    if !document.Obj? || document.fields.Keys != {"type", "record_type", "payload", "checksum"} then Err(UnsupportedRecord)
    else if document.fields["type"] != Str("record") || !document.fields["payload"].Obj? then Err(UnsupportedRecord)
    else match ParseType(document.fields["record_type"])
      case None => Err(UnsupportedRecord)
      case Some(kind) =>
        var payload := document.fields["payload"].fields;
        if document.fields["checksum"] != Checksum(c, kind, payload) then Err(RecordChecksumMismatch)
        else Ok((kind, payload))
  }

  function ReadRecord<T>(schema: Schema<T>, valid: T -> bool, payload: map<string, Json>): Result<T, ArchiveError> {
    if payload.Keys != schema.fields then Err(SchemaMismatch)
    else match schema.validate(payload)
      case None => Err(InvalidModel)
      case Some(value) => if valid(value) then Ok(value) else Err(InvalidRecord)
  }

  // Adds one document to the group of its record type.
  function AddRecord(c: Codec, archive: Decoded, document: Json): Result<Decoded, ArchiveError> {
    match ValidateRecord(c, document)
    case Err(e) => Err(e)
    case Ok((MemoryItemRecord, payload)) =>
      (match ReadRecord(c.items, ValidMemoryItem, payload)
       case Err(e) => Err(e)
       case Ok(item) => Ok(archive.(items := archive.items + [item])))
    case Ok((GovernanceRecord, payload)) =>
      (match ReadRecord(c.candidates, ValidCandidate, payload)
       case Err(e) => Err(e)
       case Ok(v) => Ok(archive.(candidates := archive.candidates + [v])))
    case Ok((TombstoneRecord, payload)) =>
      (match ReadRecord(c.tombstones, ValidTombstone, payload)
       case Err(e) => Err(e)
       case Ok(t) => Ok(archive.(tombstones := archive.tombstones + [t])))
  }

  function AddRecords(c: Codec, archive: Decoded, documents: seq<Json>): Result<Decoded, ArchiveError>
    decreases documents
  {
    if documents == [] then Ok(archive)
    else match AddRecord(c, archive, documents[0])
      case Err(e) => Err(e)
      case Ok(more) => AddRecords(c, more, documents[1..])
  }

  function LoadLines(c: Codec, lines: seq<seq<byte>>): Option<seq<Json>> {
    if lines == [] then Some([])
    else match (c.loads(lines[0]), LoadLines(c, lines[1..]))
      case (Some(document), Some(rest)) => Some([document] + rest)
      case _ => None
  }

  lemma LoadLinesLength(c: Codec, lines: seq<seq<byte>>)
    ensures LoadLines(c, lines).Some? ==> |LoadLines(c, lines).value| == |lines|
  {
  }

  // The checks made before any record is read: the framed documents between manifest and footer.
  function OpenArchive(c: Codec, data: seq<byte>, scope: Scope): Result<seq<Json>, ArchiveError> {
    var lines := SplitLines(data);
    if |lines| < 2 then Err(IncompleteArchive)
    else match LoadLines(c, lines)
      case None => Err(NotJsonLines)
      case Some(documents) =>
        LoadLinesLength(c, lines);
        var n := |lines|;
        if exists d | d in documents :: !d.Obj? then Err(NotObjects)
        else if !SameBut(c, documents[0], Manifest(scope), "version") then Err(UnsupportedManifest)
        else if !SameBut(c, documents[n - 1], Footer(c, n - 2, Terminated(lines[..n - 1], [LF])), "record_count") then Err(ChecksumMismatch)
        else Ok(documents[1..n - 1])
  }

  const NOTHING := Decoded([], [], [])

  function DecodeArchive(c: Codec, data: seq<byte>, scope: Scope): Result<Decoded, ArchiveError> {
    match OpenArchive(c, data, scope)
    case Err(e) => Err(e)
    case Ok(documents) =>
      match AddRecords(c, NOTHING, documents)
      case Err(e) => Err(e)
      case Ok(archive) =>
        if !Distinct(MemoryIds(archive)) then Err(DuplicateMemoryIds)
        else if !Distinct(CandidateIds(archive)) then Err(DuplicateCandidateIds)
        else Ok(archive)
  }

  // The decoder as written: one loop that fills the three lists.
  method Decode(c: Codec, data: seq<byte>, scope: Scope) returns (r: Result<Decoded, ArchiveError>)
    ensures r == DecodeArchive(c, data, scope)
  {
    var open := OpenArchive(c, data, scope);
    if open.Err? {
      return Err(open.error);
    }
    var documents := open.value;
    var items, candidates, tombstones := [], [], [];
    for i := 0 to |documents|
      invariant AddRecords(c, Decoded(items, candidates, tombstones), documents[i..]) == AddRecords(c, NOTHING, documents)
    {
      assert documents[i..][0] == documents[i] && documents[i..][1..] == documents[i + 1..];
      var checked := ValidateRecord(c, documents[i]);
      if checked.Err? {
        return Err(checked.error);
      }
      var (kind, payload) := checked.value;
      match kind {
        case MemoryItemRecord =>
          var item := ReadRecord(c.items, ValidMemoryItem, payload);
          if item.Err? { return Err(item.error); }
          items := items + [item.value];
        case GovernanceRecord =>
          var v := ReadRecord(c.candidates, ValidCandidate, payload);
          if v.Err? { return Err(v.error); }
          candidates := candidates + [v.value];
        case TombstoneRecord =>
          var t := ReadRecord(c.tombstones, ValidTombstone, payload);
          if t.Err? { return Err(t.error); }
          tombstones := tombstones + [t.value];
      }
    }
    var archive := Decoded(items, candidates, tombstones);
    if !Distinct(MemoryIds(archive)) {
      return Err(DuplicateMemoryIds);
    }
    if !Distinct(CandidateIds(archive)) {
      return Err(DuplicateCandidateIds);
    }
    r := Ok(archive);
  }

  // ---------------------------------------------------------------------------
  // What is assumed of JSON and of the record schemas
  // ---------------------------------------------------------------------------

  ghost predicate LawfulSchema<T(!new)>(schema: Schema<T>, valid: T -> bool) {
    forall value: T | valid(value) ::
      && schema.dump(value).Keys == schema.fields
      && schema.validate(schema.dump(value)) == Some(value)
  }

  // Canonical JSON reads back and escapes control characters (section 7 of RFC 8259).
  ghost predicate LawfulJson(c: Codec) {
    forall d: Json :: c.loads(c.canonical(d)) == Some(d) && Unbroken(c.canonical(d))
  }

  ghost predicate Lawful(c: Codec) {
    && LawfulJson(c)
    && LawfulSchema(c.items, ValidMemoryItem)
    && LawfulSchema(c.candidates, ValidCandidate)
    && LawfulSchema(c.tombstones, ValidTombstone)
  }

  // ---------------------------------------------------------------------------
  // Round trip and normal form
  // ---------------------------------------------------------------------------

  lemma {:induction false} AddRecordsConcat(c: Codec, archive: Decoded, a: seq<Json>, b: seq<Json>)
    ensures AddRecords(c, archive, a + b) ==
            match AddRecords(c, archive, a) case Err(e) => Err(e) case Ok(more) => AddRecords(c, more, b)
    decreases a
  {
    if a == [] {
      assert a + b == b;
    } else {
      assert (a + b)[1..] == a[1..] + b;
      match AddRecord(c, archive, a[0]) {
        case Err(_) =>
        case Ok(more) => AddRecordsConcat(c, more, a[1..], b);
      }
    }
  }

  lemma RecordReadsBack(c: Codec, kind: RecordType, payload: map<string, Json>)
    ensures ValidateRecord(c, Record(c, kind, payload)) == Ok((kind, payload))
  {
    assert Record(c, kind, payload).fields.Keys == {"type", "record_type", "payload", "checksum"};
  }

  lemma {:induction false} AddChain(c: Codec, documents: seq<Json>, states: seq<Decoded>)
    requires |states| == |documents| + 1
    requires forall i | 0 <= i < |documents| :: AddRecord(c, states[i], documents[i]) == Ok(states[i + 1])
    ensures AddRecords(c, states[0], documents) == Ok(states[|documents|])
  {
    if documents != [] {
      AddChain(c, documents[1..], states[1..]);
    }
  }

  lemma Grows<T>(before: seq<T>, more: seq<T>, i: nat)
    requires i < |more|
    ensures (before + more[..i]) + [more[i]] == before + more[..i + 1]
  {
  }

  lemma AddItem(c: Codec, archive: Decoded, item: MemoryItem)
    requires LawfulSchema(c.items, ValidMemoryItem) && ValidMemoryItem(item)
    ensures AddRecord(c, archive, Record(c, MemoryItemRecord, c.items.dump(item))) == Ok(archive.(items := archive.items + [item]))
  {
    RecordReadsBack(c, MemoryItemRecord, c.items.dump(item));
  }

  lemma AddItems(c: Codec, archive: Decoded, items: seq<MemoryItem>)
    requires LawfulSchema(c.items, ValidMemoryItem) && forall item | item in items :: ValidMemoryItem(item)
    ensures AddRecords(c, archive, Records(c, MemoryItemRecord, Dumps(c.items, items)))
         == Ok(archive.(items := archive.items + items))
  {
    var documents := Records(c, MemoryItemRecord, Dumps(c.items, items));
    var states := seq(|items| + 1, i requires 0 <= i <= |items| => archive.(items := archive.items + items[..i]));
    forall i | 0 <= i < |items| ensures AddRecord(c, states[i], documents[i]) == Ok(states[i + 1]) {
      AddItem(c, states[i], items[i]);
      Grows(archive.items, items, i);
    }
    AddChain(c, documents, states);
    assert archive.items + items[..0] == archive.items && items[..|items|] == items;
  }

  lemma AddCandidate(c: Codec, archive: Decoded, v: KnowledgeCandidateView)
    requires LawfulSchema(c.candidates, ValidCandidate) && ValidCandidate(v)
    ensures AddRecord(c, archive, Record(c, GovernanceRecord, c.candidates.dump(v))) == Ok(archive.(candidates := archive.candidates + [v]))
  {
    RecordReadsBack(c, GovernanceRecord, c.candidates.dump(v));
  }

  lemma AddCandidates(c: Codec, archive: Decoded, vs: seq<KnowledgeCandidateView>)
    requires LawfulSchema(c.candidates, ValidCandidate) && forall v | v in vs :: ValidCandidate(v)
    ensures AddRecords(c, archive, Records(c, GovernanceRecord, Dumps(c.candidates, vs)))
         == Ok(archive.(candidates := archive.candidates + vs))
  {
    var documents := Records(c, GovernanceRecord, Dumps(c.candidates, vs));
    var states := seq(|vs| + 1, i requires 0 <= i <= |vs| => archive.(candidates := archive.candidates + vs[..i]));
    forall i | 0 <= i < |vs| ensures AddRecord(c, states[i], documents[i]) == Ok(states[i + 1]) {
      AddCandidate(c, states[i], vs[i]);
      Grows(archive.candidates, vs, i);
    }
    AddChain(c, documents, states);
    assert archive.candidates + vs[..0] == archive.candidates && vs[..|vs|] == vs;
  }

  lemma AddTombstone(c: Codec, archive: Decoded, t: ErasureTombstone)
    requires LawfulSchema(c.tombstones, ValidTombstone) && ValidTombstone(t)
    ensures AddRecord(c, archive, Record(c, TombstoneRecord, c.tombstones.dump(t))) == Ok(archive.(tombstones := archive.tombstones + [t]))
  {
    RecordReadsBack(c, TombstoneRecord, c.tombstones.dump(t));
  }

  lemma AddTombstones(c: Codec, archive: Decoded, ts: seq<ErasureTombstone>)
    requires LawfulSchema(c.tombstones, ValidTombstone) && forall t | t in ts :: ValidTombstone(t)
    ensures AddRecords(c, archive, Records(c, TombstoneRecord, Dumps(c.tombstones, ts)))
         == Ok(archive.(tombstones := archive.tombstones + ts))
  {
    var documents := Records(c, TombstoneRecord, Dumps(c.tombstones, ts));
    var states := seq(|ts| + 1, i requires 0 <= i <= |ts| => archive.(tombstones := archive.tombstones + ts[..i]));
    forall i | 0 <= i < |ts| ensures AddRecord(c, states[i], documents[i]) == Ok(states[i + 1]) {
      AddTombstone(c, states[i], ts[i]);
      Grows(archive.tombstones, ts, i);
    }
    AddChain(c, documents, states);
    assert archive.tombstones + ts[..0] == archive.tombstones && ts[..|ts|] == ts;
  }

  lemma DocumentsReadBack(c: Codec, archive: Decoded)
    requires Lawful(c) && ValidArchive(archive)
    ensures AddRecords(c, NOTHING, RecordDocuments(c, archive)) == Ok(archive)
  {
    var a := Records(c, MemoryItemRecord, Dumps(c.items, archive.items));
    var b := Records(c, GovernanceRecord, Dumps(c.candidates, archive.candidates));
    var d := Records(c, TombstoneRecord, Dumps(c.tombstones, archive.tombstones));
    AddItems(c, NOTHING, archive.items);
    AddCandidates(c, NOTHING.(items := [] + archive.items), archive.candidates);
    AddTombstones(c, NOTHING.(items := [] + archive.items, candidates := [] + archive.candidates), archive.tombstones);
    AddRecordsConcat(c, NOTHING, a + b, d);
    AddRecordsConcat(c, NOTHING, a, b);
    assert [] + archive.items == archive.items;
    assert [] + archive.candidates == archive.candidates;
    assert [] + archive.tombstones == archive.tombstones;
  }

  lemma {:induction false} CanonicalsReadBack(c: Codec, documents: seq<Json>)
    requires LawfulJson(c)
    ensures LoadLines(c, Canonicals(c, documents)) == Some(documents)
    ensures |Canonicals(c, documents)| == |documents|
    ensures forall line | line in Canonicals(c, documents) :: Unbroken(line)
  {
    if documents != [] {
      CanonicalsReadBack(c, documents[1..]);
      assert Canonicals(c, documents)[0] == c.canonical(documents[0]);
      assert documents == [documents[0]] + documents[1..];
      assert Canonicals(c, documents)[1..] == Canonicals(c, documents[1..]);
    }
  }

  lemma {:induction false} CanonicalsSnoc(c: Codec, documents: seq<Json>, last: Json)
    ensures Canonicals(c, documents + [last]) == Canonicals(c, documents) + [c.canonical(last)]
  {
    if documents != [] {
      assert (documents + [last])[1..] == documents[1..] + [last];
      CanonicalsSnoc(c, documents[1..], last);
    }
  }

  lemma RecordsAreObjects(c: Codec, archive: Decoded)
    ensures forall d | d in RecordDocuments(c, archive) :: d.Obj?
  {
  }

  lemma EncodedLinesLoad(c: Codec, scope: Scope, archive: Decoded, end: seq<byte>) returns (documents: seq<Json>)
    requires LawfulJson(c) && IsLineEnd(end)
    ensures var lines := EncodedLines(c, scope, archive);
            && SplitLines(Terminated(lines, end)) == lines
            && LoadLines(c, lines) == Some(documents)
            && |documents| == |lines| == |RecordDocuments(c, archive)| + 2
            && documents[0] == Manifest(scope)
            && documents[1..|lines| - 1] == RecordDocuments(c, archive)
            && documents[|lines| - 1] == Footer(c, |lines| - 2, Terminated(lines[..|lines| - 1], [LF]))
    ensures forall d | d in documents :: d.Obj?
  {
    var records := RecordDocuments(c, archive);
    RecordsAreObjects(c, archive);
    documents := EncodedLinesAre(c, scope, archive, records);
    CanonicalsReadBack(c, documents);
    SplitTerminated(Canonicals(c, documents), end);
  }

  lemma EncodedLinesAre(c: Codec, scope: Scope, archive: Decoded, records: seq<Json>) returns (documents: seq<Json>)
    requires LawfulJson(c) && records == RecordDocuments(c, archive)
    ensures var lines := EncodedLines(c, scope, archive);
            && lines == Canonicals(c, documents)
            && |documents| == |lines| == |records| + 2
            && documents == [Manifest(scope)] + records + [Footer(c, |lines| - 2, Terminated(lines[..|lines| - 1], [LF]))]
  {
    var head := [Manifest(scope)] + records;
    var lines := Canonicals(c, head);
    var footer := Footer(c, |head| - 1, Terminated(lines, [LF]));
    documents := head + [footer];
    CanonicalsSnoc(c, head, footer);
    CanonicalsReadBack(c, head);
    assert Canonicals(c, documents)[..|head|] == lines;
  }

  lemma SameAsItself(c: Codec, document: Json, key: string)
    requires document.Obj? && key in document.fields && document.fields[key].Int?
    ensures SameBut(c, document, document, key)
  {
    assert document.fields[key := document.fields[key]] == document.fields;
  }

  lemma Opens(c: Codec, data: seq<byte>, scope: Scope, lines: seq<seq<byte>>, documents: seq<Json>)
    requires SplitLines(data) == lines && LoadLines(c, lines) == Some(documents) && |documents| == |lines| >= 2
    requires forall d | d in documents :: d.Obj?
    requires documents[0] == Manifest(scope)
    requires documents[|lines| - 1] == Footer(c, |lines| - 2, Terminated(lines[..|lines| - 1], [LF]))
    ensures OpenArchive(c, data, scope) == Ok(documents[1..|lines| - 1])
  {
    SameAsItself(c, Manifest(scope), "version");
    SameAsItself(c, documents[|lines| - 1], "record_count");
  }

  lemma OpensAsEncoded(c: Codec, scope: Scope, archive: Decoded, end: seq<byte>)
    requires LawfulJson(c) && IsLineEnd(end)
    ensures OpenArchive(c, Terminated(EncodedLines(c, scope, archive), end), scope) == Ok(RecordDocuments(c, archive))
  {
    var documents := EncodedLinesLoad(c, scope, archive, end);
    Opens(c, Terminated(EncodedLines(c, scope, archive), end), scope, EncodedLines(c, scope, archive), documents);
  }

  // Decoding an encoded archive of valid records returns the same three sequences in order,
  // whichever of the line ends a transfer left behind.
  lemma RoundTrip(c: Codec, scope: Scope, archive: Decoded, end: seq<byte>)
    requires Lawful(c) && ValidArchive(archive) && IsLineEnd(end)
    ensures DecodeArchive(c, Terminated(EncodedLines(c, scope, archive), end), scope) == Ok(archive)
    ensures DecodeArchive(c, EncodeArchive(c, scope, archive), scope) == Ok(archive)
  {
    OpensAsEncoded(c, scope, archive, end);
    OpensAsEncoded(c, scope, archive, [LF]);
    DocumentsReadBack(c, archive);
  }

  ghost predicate ValidRecords(archive: Decoded) {
    && (forall item | item in archive.items :: ValidMemoryItem(item))
    && (forall v | v in archive.candidates :: ValidCandidate(v))
    && (forall t | t in archive.tombstones :: ValidTombstone(t))
  }

  lemma {:induction false} AddedRecordsAreValid(c: Codec, archive: Decoded, documents: seq<Json>)
    requires ValidRecords(archive)
    ensures AddRecords(c, archive, documents).Ok? ==> ValidRecords(AddRecords(c, archive, documents).value)
    decreases documents
  {
    if documents != [] {
      match AddRecord(c, archive, documents[0]) {
        case Err(_) =>
        case Ok(more) => AddedRecordsAreValid(c, more, documents[1..]);
      }
    }
  }

  // Whatever is accepted is a valid archive, and encoding it again is a normal form.
  lemma NormalForm(c: Codec, scope: Scope, data: seq<byte>)
    requires Lawful(c) && DecodeArchive(c, data, scope).Ok?
    ensures ValidArchive(DecodeArchive(c, data, scope).value)
    ensures DecodeArchive(c, EncodeArchive(c, scope, DecodeArchive(c, data, scope).value), scope)
         == DecodeArchive(c, data, scope)
  {
    AddedRecordsAreValid(c, NOTHING, OpenArchive(c, data, scope).value);
    RoundTrip(c, scope, DecodeArchive(c, data, scope).value, [LF]);
  }

  // An archive of one scope is never accepted as the other.
  lemma ScopesNeverMix(c: Codec, scope: Scope, other: Scope, archive: Decoded)
    requires LawfulJson(c) && scope != other
    ensures DecodeArchive(c, EncodeArchive(c, scope, archive), other) == Err(UnsupportedManifest)
  {
    var documents := EncodedLinesLoad(c, scope, archive, [LF]);
    assert Manifest(scope).fields["version" := Int(VERSION)]["scope"] == Str(ScopeName(scope)) != Manifest(other).fields["scope"];
  }
}
