// Which archives the decoder accepts, field by field: no line, checksum or record can be left out
// of the checks.
module ArchiveExact {
  import opened Common
  import opened Json
  import opened MemoryModels
  import opened Archive

  // ---------------------------------------------------------------------------
  // Lines
  // ---------------------------------------------------------------------------

  // Every byte string is no line, a last line without an end, or a line, its end and the rest; so
  // these three determine the lines.
  lemma SplitExactly(line: seq<byte>, end: seq<byte>, rest: seq<byte>)
    requires (forall i | 0 <= i < |line| :: line[i] != 10 && line[i] != 13)
    ensures SplitLines([]) == []
    ensures line != [] ==> SplitLines(line) == [line]
    ensures end == [10] || end == [13, 10] || (end == [13] && (rest == [] || rest[0] != 10)) ==>
              SplitLines(line + end + rest) == [line] + SplitLines(rest)
  {
    WholeLine(line);
    if end == [10] || end == [13, 10] || (end == [13] && (rest == [] || rest[0] != 10)) { SplitOne(line, end, rest); }
  }

  lemma {:induction false} WholeLine(line: seq<byte>)
    requires forall i | 0 <= i < |line| :: line[i] != 10 && line[i] != 13
    ensures LineEnd(line) == |line|
  {
    if line != [] { WholeLine(line[1..]); }
  }

  // ---------------------------------------------------------------------------
  // Manifest and footer
  // ---------------------------------------------------------------------------

  predicate IsManifest(c: Codec, document: Json, scope: string) {
    && document.Obj? && document.fields.Keys == {"type", "format", "version", "scope"}
    && document.fields["type"] == Str("manifest") && document.fields["format"] == Str("memory-archive")
    && (document.fields["version"] == Int(2) || (document.fields["version"].Float? && c.equalsInt(document.fields["version"].double, 2)))
    && document.fields["scope"] == Str(scope)
  }

  predicate Counts(c: Codec, value: Json, n: nat) {
    || value == Int(n) || (value.Float? && c.equalsInt(value.double, n))
    || (value == Bool(false) && n == 0) || (value == Bool(true) && n == 1)
  }

  predicate IsFooter(c: Codec, document: Json, recordCount: nat, digest: string) {
    && document.Obj? && document.fields.Keys == {"type", "algorithm", "record_count", "value"}
    && document.fields["type"] == Str("archive_checksum") && document.fields["algorithm"] == Str("sha256")
    && Counts(c, document.fields["record_count"], recordCount) && document.fields["value"] == Str(digest)
  }

  lemma ManifestExactly(c: Codec, document: Json, scope: Scope)
    ensures SameBut(c, document, Manifest(scope), "version")
       <==> IsManifest(c, document, if scope == PrivateScope then "private" else "tenant")
  {
    var expected := Manifest(scope);
    assert expected.fields.Keys == {"type", "format", "version", "scope"};
    if document.Obj? && document.fields.Keys == expected.fields.Keys {
      SameFields(document.fields, expected.fields, "version");
    }
  }

  lemma SameFields(fields: map<string, Json>, expected: map<string, Json>, key: string)
    requires fields.Keys == expected.Keys && key in expected
    ensures fields[key := expected[key]] == expected <==> forall k | k in expected && k != key :: fields[k] == expected[k]
  {
    if fields[key := expected[key]] == expected {
      forall k | k in expected && k != key ensures fields[k] == expected[k] {
        assert fields[key := expected[key]][k] == fields[k];
      }
    }
  }

  lemma FooterExactly(c: Codec, document: Json, recordCount: nat, payload: seq<byte>)
    ensures SameBut(c, document, Footer(c, recordCount, payload), "record_count")
       <==> IsFooter(c, document, recordCount, c.sha256(payload))
  {
    var expected := Footer(c, recordCount, payload);
    assert expected.fields.Keys == {"type", "algorithm", "record_count", "value"};
    if document.Obj? && document.fields.Keys == expected.fields.Keys {
      SameFields(document.fields, expected.fields, "record_count");
    }
  }

  lemma {:induction false} LoadsExactly(c: Codec, lines: seq<seq<byte>>)
    ensures var loaded := LoadLines(c, lines);
            && (loaded.Some? <==> forall i | 0 <= i < |lines| :: c.loads(lines[i]).Some?)
            && (loaded.Some? ==> |loaded.value| == |lines| && forall i | 0 <= i < |lines| :: c.loads(lines[i]) == Some(loaded.value[i]))
  {
    if lines != [] {
      LoadsExactly(c, lines[1..]);
      assert forall i | 1 <= i < |lines| :: lines[i] == lines[1..][i - 1];
    }
  }

  // The lines without their last, each ended by a line feed.
  lemma {:induction false} TerminatedExactly(lines: seq<seq<byte>>, line: seq<byte>)
    ensures Terminated([], [10]) == []
    ensures Terminated(lines + [line], [10]) == Terminated(lines, [10]) + line + [10]
  {
    if lines == [] {
      assert lines + [line] == [line] && [line][1..] == [];
      assert Terminated([line], [10]) == line + [10] + Terminated([], [10]);
    } else {
      assert (lines + [line])[1..] == lines[1..] + [line];
      TerminatedExactly(lines[1..], line);
    }
  }

  // Every line is an object.
  predicate AreObjects(c: Codec, lines: seq<seq<byte>>) {
    forall i | 0 <= i < |lines| :: c.loads(lines[i]).Some? && c.loads(lines[i]).value.Obj?
  }

  // An archive opens exactly if it has at least two lines, each of them a JSON object, of which the
  // first is the manifest of the scope and the last the footer with the number of the lines between
  // and the digest of all before it. What is opened are the lines between.
  lemma OpensExactly(c: Codec, data: seq<byte>, scope: Scope)
    ensures var r, lines, n := OpenArchive(c, data, scope), SplitLines(data), |SplitLines(data)|;
            && (r.Ok? <==>
                  && n >= 2 && AreObjects(c, lines)
                  && IsManifest(c, c.loads(lines[0]).value, if scope == PrivateScope then "private" else "tenant")
                  && IsFooter(c, c.loads(lines[n - 1]).value, n - 2, c.sha256(Terminated(lines[..n - 1], [10]))))
            && (r.Ok? ==> |r.value| == n - 2 && forall i | 0 <= i < n - 2 :: c.loads(lines[i + 1]) == Some(r.value[i]))
  {
    var lines, n := SplitLines(data), |SplitLines(data)|;
    ObjectsExactly(c, lines);
    if n >= 2 && LoadLines(c, lines).Some? {
      var documents := LoadLines(c, lines).value;
      OpensOn(c, data, scope, lines, documents);
      ManifestExactly(c, documents[0], scope);
      FooterExactly(c, documents[n - 1], n - 2, Terminated(lines[..n - 1], [10]));
    }
  }

  lemma OpensOn(c: Codec, data: seq<byte>, scope: Scope, lines: seq<seq<byte>>, documents: seq<Json>)
    requires lines == SplitLines(data) && LoadLines(c, lines) == Some(documents) && |documents| == |lines| >= 2
    ensures OpenArchive(c, data, scope).Ok? <==>
      && (forall d | d in documents :: d.Obj?)
      && SameBut(c, documents[0], Manifest(scope), "version")
      && SameBut(c, documents[|lines| - 1], Footer(c, |lines| - 2, Terminated(lines[..|lines| - 1], [10])), "record_count")
    ensures OpenArchive(c, data, scope).Ok? ==> OpenArchive(c, data, scope).value == documents[1..|lines| - 1]
  {
  }

  lemma ObjectsExactly(c: Codec, lines: seq<seq<byte>>)
    ensures var loaded := LoadLines(c, lines);
            && (AreObjects(c, lines) <==> loaded.Some? && forall d | d in loaded.value :: d.Obj?)
            && (loaded.Some? ==> |loaded.value| == |lines| && forall i | 0 <= i < |lines| :: c.loads(lines[i]) == Some(loaded.value[i]))
  {
    LoadsExactly(c, lines);
    if LoadLines(c, lines).Some? {
      var documents := LoadLines(c, lines).value;
      if d :| d in documents && !d.Obj? {
        var i :| 0 <= i < |lines| && documents[i] == d;
        assert c.loads(lines[i]) == Some(d);
      } else {
        forall i | 0 <= i < |lines| ensures c.loads(lines[i]).value.Obj? { assert documents[i] in documents; }
      }
    }
  }

  // ---------------------------------------------------------------------------
  // Records
  // ---------------------------------------------------------------------------

  predicate IsRecord(c: Codec, document: Json, name: string) {
    && document.Obj? && document.fields.Keys == {"type", "record_type", "payload", "checksum"}
    && document.fields["type"] == Str("record") && document.fields["record_type"] == Str(name)
    && document.fields["payload"].Obj?
    && document.fields["checksum"] == Obj(map["algorithm" := Str("sha256"), "value" := Str(c.sha256(c.canonical(
         Obj(map["record_type" := Str(name), "payload" := document.fields["payload"]]))))])
  }

  function NameOf(kind: RecordType): string {
    match kind
    case MemoryItemRecord => "memory_item"
    case GovernanceRecord => "governance_candidate"
    case TombstoneRecord => "erasure_tombstone"
  }

  lemma RecordExactly(c: Codec, document: Json, kind: RecordType)
    ensures var r := ValidateRecord(c, document);
            (r.Ok? && r.value.0 == kind <==> IsRecord(c, document, NameOf(kind)))
            && (r.Ok? ==> document.Obj? && "payload" in document.fields && document.fields["payload"] == Obj(r.value.1))
  {
  }

  predicate IsReadable<T>(schema: Schema<T>, valid: T -> bool, payload: map<string, Json>) {
    payload.Keys == schema.fields && schema.validate(payload).Some? && valid(schema.validate(payload).value)
  }

  // A document adds to exactly one of the three lists, at its end, what its schema reads from it.
  lemma AddExactly(c: Codec, archive: Decoded, document: Json)
    ensures var r := AddRecord(c, archive, document);
            && (IsRecord(c, document, "memory_item") && IsReadable(c.items, ValidMemoryItem, document.fields["payload"].fields) ==>
                  r == Ok(Decoded(archive.items + [c.items.validate(document.fields["payload"].fields).value],
                                  archive.candidates, archive.tombstones)))
            && (IsRecord(c, document, "governance_candidate") && IsReadable(c.candidates, ValidCandidate, document.fields["payload"].fields) ==>
                  r == Ok(Decoded(archive.items,
                                  archive.candidates + [c.candidates.validate(document.fields["payload"].fields).value], archive.tombstones)))
            && (IsRecord(c, document, "erasure_tombstone") && IsReadable(c.tombstones, ValidTombstone, document.fields["payload"].fields) ==>
                  r == Ok(Decoded(archive.items, archive.candidates,
                                  archive.tombstones + [c.tombstones.validate(document.fields["payload"].fields).value])))
            && (r.Ok? <==> IsAddable(c, document))
  {
    RecordExactly(c, document, MemoryItemRecord);
    RecordExactly(c, document, GovernanceRecord);
    RecordExactly(c, document, TombstoneRecord);
  }

  predicate IsAddable(c: Codec, document: Json) {
    || (IsRecord(c, document, "memory_item") && IsReadable(c.items, ValidMemoryItem, document.fields["payload"].fields))
    || (IsRecord(c, document, "governance_candidate") && IsReadable(c.candidates, ValidCandidate, document.fields["payload"].fields))
    || (IsRecord(c, document, "erasure_tombstone") && IsReadable(c.tombstones, ValidTombstone, document.fields["payload"].fields))
  }

  lemma {:induction false} AddsExactly(c: Codec, archive: Decoded, documents: seq<Json>)
    ensures AddRecords(c, archive, documents).Ok? <==> forall d | d in documents :: IsAddable(c, d)
    decreases documents
  {
    if documents != [] {
      AddExactly(c, archive, documents[0]);
      assert documents == [documents[0]] + documents[1..];
      match AddRecord(c, archive, documents[0]) {
        case Err(_) => assert documents[0] in documents;
        case Ok(more) => AddsExactly(c, more, documents[1..]);
      }
    }
  }

  // The last document adds to what those before it gave.
  lemma {:induction false} AddsLast(c: Codec, archive: Decoded, documents: seq<Json>, last: Json)
    ensures AddRecords(c, archive, []) == Ok(archive)
    ensures AddRecords(c, archive, documents + [last]) ==
              match AddRecords(c, archive, documents) case Err(e) => Err(e) case Ok(more) => AddRecord(c, more, last)
  {
    AddRecordsConcat(c, archive, documents, [last]);
    var front := AddRecords(c, archive, documents);
    if front.Ok? { AddsOne(c, front.value, last); }
  }

  lemma AddsOne(c: Codec, archive: Decoded, document: Json)
    ensures AddRecords(c, archive, [document]) == AddRecord(c, archive, document)
  {
    assert [document][1..] == [];
  }

  // ---------------------------------------------------------------------------
  // What is accepted
  // ---------------------------------------------------------------------------

  ghost predicate NoneTwice(ids: seq<string>) {
    forall i, j | 0 <= i < j < |ids| :: ids[i] != ids[j]
  }

  lemma {:induction false} DistinctExactly(ids: seq<string>)
    ensures |set id | id in ids| <= |ids| && (Distinct(ids) <==> NoneTwice(ids))
  {
    if ids != [] {
      var n := |ids| - 1;
      var front := ids[..n];
      DistinctExactly(front);
      assert ids == front + [ids[n]];
      assert (set id | id in ids) == (set id | id in front) + {ids[n]};
      if ids[n] in front {
        assert (set id | id in ids) == (set id | id in front);
        var i :| 0 <= i < n && front[i] == ids[n];
        assert ids[i] == ids[n];
      } else {
        forall i, j | 0 <= i < j < |ids| && NoneTwice(front) ensures ids[i] != ids[j] {
          if j < n { assert front[i] != front[j]; } else { assert front[i] in front; }
        }
        if NoneTwice(ids) {
          forall i, j | 0 <= i < j < n ensures front[i] != front[j] { assert ids[i] != ids[j]; }
        }
      }
    }
  }

  ghost predicate NoMemoryTwice(archive: Decoded) {
    && (forall i, j | 0 <= i < j < |archive.items| :: archive.items[i].id != archive.items[j].id)
    && (forall i, j | 0 <= i < j < |archive.tombstones| :: archive.tombstones[i].memoryId != archive.tombstones[j].memoryId)
    && (forall i, j | 0 <= i < |archive.items| && 0 <= j < |archive.tombstones| :: archive.items[i].id != archive.tombstones[j].memoryId)
  }

  ghost predicate NoCandidateTwice(archive: Decoded) {
    forall i, j | 0 <= i < j < |archive.candidates| :: archive.candidates[i].id != archive.candidates[j].id
  }

  lemma MemoryIdsExactly(archive: Decoded)
    ensures Distinct(MemoryIds(archive)) <==> NoMemoryTwice(archive)
  {
    var ids, n := MemoryIds(archive), |archive.items|;
    DistinctExactly(ids);
    assert forall i | 0 <= i < n :: ids[i] == archive.items[i].id;
    assert forall j | 0 <= j < |archive.tombstones| :: ids[n + j] == archive.tombstones[j].memoryId;
    if NoMemoryTwice(archive) {
      forall i, j | 0 <= i < j < |ids| ensures ids[i] != ids[j] {
        if i >= n { assert ids[i] == archive.tombstones[i - n].memoryId; }
        if j >= n { assert ids[j] == archive.tombstones[j - n].memoryId; }
      }
    }
  }

  lemma CandidateIdsExactly(archive: Decoded)
    ensures Distinct(CandidateIds(archive)) <==> NoCandidateTwice(archive)
  {
    DistinctExactly(CandidateIds(archive));
    assert forall i | 0 <= i < |archive.candidates| :: CandidateIds(archive)[i] == archive.candidates[i].id;
  }

  // The decoder accepts exactly the archives that open, all of whose records have their own digest
  // and can be read, and in which no memory is kept or erased twice, nor kept and erased, and no
  // candidate comes twice.
  lemma AcceptsExactly(c: Codec, data: seq<byte>, scope: Scope)
    ensures var r, found := DecodeArchive(c, data, scope), OpenArchive(c, data, scope);
            && (r.Ok? <==>
                  && found.Ok? && (forall d | d in found.value :: IsAddable(c, d))
                  && AddRecords(c, Decoded([], [], []), found.value).Ok?
                  && NoMemoryTwice(AddRecords(c, Decoded([], [], []), found.value).value)
                  && NoCandidateTwice(AddRecords(c, Decoded([], [], []), found.value).value))
            && (r.Ok? ==> AddRecords(c, Decoded([], [], []), found.value) == r)
  {
    var r := OpenArchive(c, data, scope);
    if r.Ok? {
      AddsExactly(c, NOTHING, r.value);
      match AddRecords(c, NOTHING, r.value) {
        case Err(_) =>
        case Ok(archive) =>
          MemoryIdsExactly(archive);
          CandidateIdsExactly(archive);
      }
    }
  }

  // ---------------------------------------------------------------------------
  // What is written
  // ---------------------------------------------------------------------------

  lemma {:induction false} CanonicalAt(c: Codec, documents: seq<Json>)
    ensures |Canonicals(c, documents)| == |documents|
    ensures forall i | 0 <= i < |documents| :: Canonicals(c, documents)[i] == c.canonical(documents[i])
  {
    if documents != [] {
      CanonicalAt(c, documents[1..]);
      assert forall i | 1 <= i < |documents| :: documents[i] == documents[1..][i - 1];
    }
  }

  function Written(c: Codec, name: string, payload: map<string, Json>): Json {
    Obj(map["type" := Str("record"), "record_type" := Str(name), "payload" := Obj(payload),
            "checksum" := Obj(map["algorithm" := Str("sha256"), "value" := Str(c.sha256(c.canonical(
              Obj(map["record_type" := Str(name), "payload" := Obj(payload)]))))])])
  }

  // The records of an archive: every item, candidate and tombstone in order.
  lemma DocumentsExactly(c: Codec, archive: Decoded)
    ensures var documents, i, v, t := RecordDocuments(c, archive), |archive.items|, |archive.candidates|, |archive.tombstones|;
            && |documents| == i + v + t
            && (forall k | 0 <= k < i :: documents[k] == Written(c, "memory_item", c.items.dump(archive.items[k])))
            && (forall k | 0 <= k < v :: documents[i + k] == Written(c, "governance_candidate", c.candidates.dump(archive.candidates[k])))
            && (forall k | 0 <= k < t :: documents[i + v + k] == Written(c, "erasure_tombstone", c.tombstones.dump(archive.tombstones[k])))
  {
    var items := Records(c, MemoryItemRecord, Dumps(c.items, archive.items));
    var candidates := Records(c, GovernanceRecord, Dumps(c.candidates, archive.candidates));
    var tombstones := Records(c, TombstoneRecord, Dumps(c.tombstones, archive.tombstones));
    RecordsExactly(c, MemoryItemRecord, Dumps(c.items, archive.items));
    RecordsExactly(c, GovernanceRecord, Dumps(c.candidates, archive.candidates));
    RecordsExactly(c, TombstoneRecord, Dumps(c.tombstones, archive.tombstones));
    JoinedAt(items, candidates, tombstones);
  }

  lemma RecordsExactly(c: Codec, kind: RecordType, payloads: seq<map<string, Json>>)
    ensures var records := Records(c, kind, payloads);
            |records| == |payloads| && forall k | 0 <= k < |records| :: records[k] == Written(c, NameOf(kind), payloads[k])
  {
  }

  lemma JoinedAt(a: seq<Json>, b: seq<Json>, d: seq<Json>)
    ensures var all := a + b + d;
            && (forall k | 0 <= k < |a| :: all[k] == a[k])
            && (forall k | 0 <= k < |b| :: all[|a| + k] == b[k])
            && (forall k | 0 <= k < |d| :: all[|a| + |b| + k] == d[k])
  {
  }

  // An archive is written as the manifest of the scope, its records, and the footer with their
  // number and the digest of all before it, a line each in canonical JSON.
  lemma EncodesExactly(c: Codec, scope: Scope, archive: Decoded)
    ensures var lines, documents := EncodedLines(c, scope, archive), RecordDocuments(c, archive);
            && |lines| == |documents| + 2
            && lines[0] == c.canonical(Obj(map["type" := Str("manifest"), "format" := Str("memory-archive"), "version" := Int(2),
                                               "scope" := Str(if scope == PrivateScope then "private" else "tenant")]))
            && (forall k | 0 <= k < |documents| :: lines[k + 1] == c.canonical(documents[k]))
            && lines[|documents| + 1] == c.canonical(Obj(map[
                 "type" := Str("archive_checksum"), "algorithm" := Str("sha256"), "record_count" := Int(|documents|),
                 "value" := Str(c.sha256(Terminated(lines[..|documents| + 1], [10])))]))
    ensures EncodeArchive(c, scope, archive) == Terminated(EncodedLines(c, scope, archive), [10])
  {
    var records := RecordDocuments(c, archive);
    var lines := Canonicals(c, [Manifest(scope)] + records);
    LinesExactly(c, Manifest(scope), records, Footer(c, |records|, Terminated(lines, [LF])));
    assert EncodedLines(c, scope, archive) == lines + [c.canonical(Footer(c, |records|, Terminated(lines, [LF])))] by {
      assert |[Manifest(scope)] + records| - 1 == |records|;
    }
  }

  lemma LinesExactly(c: Codec, head: Json, records: seq<Json>, last: Json)
    ensures var front := Canonicals(c, [head] + records);
            var lines := front + [c.canonical(last)];
            && |lines| == |records| + 2 && lines[..|records| + 1] == front
            && lines[0] == c.canonical(head) && lines[|records| + 1] == c.canonical(last)
            && forall k | 0 <= k < |records| :: lines[k + 1] == c.canonical(records[k])
  {
    var documents := [head] + records;
    CanonicalAt(c, documents);
    forall k | 0 <= k < |records| ensures documents[k + 1] == records[k] {}
  }

  // ---------------------------------------------------------------------------
  // Valid records
  // ---------------------------------------------------------------------------

  ghost predicate HasText(text: string) {
    exists i :: 0 <= i < |text| && !IsSpace(text[i])
  }

  lemma TextExactly(text: string)
    ensures NonBlank(text) <==> HasText(text)
  {
    if i :| 0 <= i < |text| && !IsSpace(text[i]) { assert text[i] in text; }
  }

  // A record names whom it concerns and has text of at most 16,000 characters; a reviewed candidate
  // names reviewer and reason, which a submitted one has not and a decided one must; an erasure is
  // not completed before it was created.
  lemma ValidRecordsExactly(item: MemoryItem, v: KnowledgeCandidateView, t: ErasureTombstone)
    ensures ValidMemoryItem(item) <==>
      && HasText(item.id) && HasText(item.content) && |item.content| <= 16_000 && InUnitInterval(item.confidence)
      && HasText(item.actorId) && HasText(item.source) && (item.supersedes.Some? ==> HasText(item.supersedes.value))
    ensures ValidCandidate(v) <==>
      && HasText(v.id) && HasText(v.claim) && |v.claim| <= 16_000 && InUnitInterval(v.confidence)
      && HasText(v.proposerId) && v.sourceCount >= 0
      && (v.reviewedBy.Some? <==> v.rationale.Some?)
      && (v.reviewedBy.Some? ==> HasText(v.reviewedBy.value) && HasText(v.rationale.value))
      && (v.status == Submitted ==> v.reviewedBy.None?)
      && (v.status == Approved || v.status == CandidateStatus.Rejected || v.status == Publishing || v.status == Published ==> v.reviewedBy.Some?)
    ensures ValidTombstone(t) <==>
      && HasText(t.id) && HasText(t.memoryId) && HasText(t.requesterId) && HasText(t.ownerId) && HasText(t.reviewedBy)
      && t.createdAt <= t.completedAt
  {
    forall text ensures NonBlank(text) <==> HasText(text) { TextExactly(text); }
  }
}
