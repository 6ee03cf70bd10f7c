/**
 * `Api.Functions.IndexUpserter`: the NDJSON batch loader. A blob of note records is cleaned,
 * the index is recreated outside production, every record becomes one chunk document or one
 * per paragraph, and the concatenated documents are uploaded in one batch.
 */
module ApiFunctionsIndexUpserter {
  import opened Wrappers
  import opened Text
  import opened Values
  import opened Chunking
  import opened SearchIndexes
  import ApiModelsRecord

  type Record = ApiModelsRecord.SourceNoteRecord

  const OrderField: string := "NoteChunkOrder"
  const VectorField: string := "NoteChunkVector"

  /** `ASPNETCORE_ENVIRONMENT` is "Production", compared ignoring case. */
  predicate IsProduction(environment: Option<string>) {
    environment.Some? && EqualsIgnoreCase(environment.value, "Production")
  }

  /** The index after lines 45-54: dropped and created empty outside production, else kept. */
  function Reset(docs: map<string, Document>, environment: Option<string>): map<string, Document> {
    if IsProduction(environment) then docs else map[]
  }

  // ---------------------------------------------------------------------------------------
  // The parse loop

  /** The records read, the next `Guid` serial, and whether a deserialisation threw. */
  datatype ReadResult = ReadResult(records: seq<Record>, nextId: nat, threw: bool)

  /** The number of `null` values in a stream. */
  function NullCount(items: seq<Deserialized<Record>>): nat
    decreases |items|
  {
    if items == [] then 0
    else NullCount(items[..|items| - 1]) + (if items[|items| - 1].NullLiteral? then 1 else 0)
  }

  /**
   * The loop of lines 63-69 over the values of the stream, ids drawn from `firstId` on: each
   * value deserialised and added, `null` replaced by a new record; the first value that does not
   * deserialise ends the run with the exception.
   */
  function ReadRecords(items: seq<Deserialized<Record>>, firstId: nat): ReadResult
    decreases |items|
  {
    if items == [] then ReadResult([], firstId, false)
    else
      var before := ReadRecords(items[..|items| - 1], firstId);
      if before.threw then before
      else match items[|items| - 1]
        case Throws => before.(threw := true)
        case NullLiteral =>
          ReadResult(before.records + [ApiModelsRecord.New(Guid(before.nextId))], before.nextId + 1, false)
        case Parsed(r) => before.(records := before.records + [r])
  }

  /** The record the `i`-th value becomes: itself, or for `null` a new record with the next fresh `Guid`. */
  function RecordAt(items: seq<Deserialized<Record>>, i: nat, firstId: nat): Record
    requires i < |items|
  {
    match items[i]
    case Parsed(r) => r
    case _ => ApiModelsRecord.New(Guid(firstId + NullCount(items[..i])))
  }

  /**
   * The parse throws exactly when some value of the stream does not deserialise; otherwise it
   * yields one record per value, in stream order, and draws one `Guid` per `null`.
   */
  lemma {:induction false} ReadRecordsInOrder(items: seq<Deserialized<Record>>, firstId: nat)
    ensures ReadRecords(items, firstId).threw <==> exists i | 0 <= i < |items| :: items[i].Throws?
    ensures !ReadRecords(items, firstId).threw ==>
      && |ReadRecords(items, firstId).records| == |items|
      && ReadRecords(items, firstId).nextId == firstId + NullCount(items)
      && forall i | 0 <= i < |items| :: ReadRecords(items, firstId).records[i] == RecordAt(items, i, firstId)
    decreases |items|
  {
    if items != [] {
      var n := |items| - 1;
      var init := items[..n];
      ReadRecordsInOrder(init, firstId);
      var before := ReadRecords(init, firstId);
      if before.threw {
        var j :| 0 <= j < |init| && init[j].Throws?;
        assert items[j] == init[j];
      } else {
        assert forall j | 0 <= j < n :: items[j] == init[j];
        if !items[n].Throws? {
          var after := ReadRecords(items, firstId);
          forall i | 0 <= i < |items| ensures after.records[i] == RecordAt(items, i, firstId) {
            if i < n {
              assert items[..i] == init[..i];
              assert after.records[i] == before.records[i];
            }
          }
        }
      }
    }
  }

  /** Once a prefix of the stream throws, the rest of the stream is never read. */
  lemma {:induction false} ReadRecordsStops(items: seq<Deserialized<Record>>, n: nat, firstId: nat)
    requires n <= |items| && ReadRecords(items[..n], firstId).threw
    ensures ReadRecords(items, firstId) == ReadRecords(items[..n], firstId)
    decreases |items|
  {
    if n < |items| {
      var init := items[..|items| - 1];
      assert init[..n] == items[..n];
      ReadRecordsStops(init, n, firstId);
    } else {
      assert items[..n] == items;
    }
  }

  /** Lines 63-69: `Deserialize<SourceNoteRecord>(reader) ?? new()` for every value of the stream. */
  method ReadAll(items: seq<Deserialized<Record>>, guids: GuidSource) returns (records: seq<Record>, threw: bool)
    modifies guids
    ensures ReadRecords(items, old(guids.next)) == ReadResult(records, guids.next, threw)
  {
    ghost var firstId := guids.next;
    records := [];
    var i := 0;
    while i < |items|
      invariant i <= |items|
      invariant ReadRecords(items[..i], firstId) == ReadResult(records, guids.next, false)
    {
      assert items[..i + 1][..i] == items[..i];
      match items[i] {
        case Throws =>
          ReadRecordsStops(items, i + 1, firstId);
          return records, true;
        case NullLiteral =>
          var g := guids.NewGuid();
          records := records + [ApiModelsRecord.New(g)];
        case Parsed(r) =>
          records := records + [r];
      }
      i := i + 1;
    }
    assert items[..i] == items;
    threw := false;
  }

  // ---------------------------------------------------------------------------------------
  // One record's documents

  /** Line 173: `NoteInHtml` when it has text, otherwise the empty string. */
  function ChunkSource(r: Record): string {
    if IsNullOrWhiteSpace(r.noteInHtml) then "" else r.noteInHtml.value
  }

  /** The record as lines 253-257 leave it: a usable `chunk` and a non-null `order` override. */
  function Converted(r: Record, chunk: Option<string>, order: Option<int32>): Record {
    r.(noteChunk := if IsNullOrWhiteSpace(chunk) then r.noteChunk else chunk,
       noteChunkOrder := if order.None? then r.noteChunkOrder else order)
  }

  /** The search document of a converted record: its dictionary, plus the chunk's embedding when the chunk has text. */
  function ChunkDocument(r: Record, chunk: Option<string>, order: Option<int32>): Document {
    var c := Converted(r, chunk, order);
    var fields := ApiModelsRecord.Fields(c);
    if IsNullOrWhiteSpace(c.noteChunk) then fields
    else fields[VectorField := Vec(Embedding(c.noteChunk.value))]
  }

  /** Lines 251-271: the overrides, the dictionary and the embedding guard. */
  method ConvertToSearchDocument(r: Record, chunk: Option<string>, order: Option<int32>) returns (d: Document)
    ensures d == ChunkDocument(r, chunk, order)
  {
    var note := r;
    if !IsNullOrWhiteSpace(chunk) {
      note := note.(noteChunk := chunk);
    }
    if order.Some? {
      note := note.(noteChunkOrder := order);
    }
    d := ApiModelsRecord.ToDictionary(note);
    if !IsNullOrWhiteSpace(note.noteChunk) {
      d := d[VectorField := Vec(Embedding(note.noteChunk.value))];
    }
  }

  /** The boxed values of the properties the lemmas below read. */
  lemma PropertyValues(c: Record)
    ensures ApiModelsRecord.PropertyValue(c, KeyField) == BoxGuid(c.indexRecordId)
    ensures ApiModelsRecord.PropertyValue(c, "NoteChunk") == BoxString(c.noteChunk)
    ensures ApiModelsRecord.PropertyValue(c, OrderField) == BoxInt32(c.noteChunkOrder)
    ensures ApiModelsRecord.PropertyValue(c, VectorField) == BoxFloats(c.noteChunkVector)
  {
  }

  /**
   * A chunk document stores the converted record's key, chunk and order; its vector is the
   * embedding of the chunk when the chunk has text, and the record's own vector otherwise.
   */
  lemma ChunkDocumentFields(r: Record, chunk: Option<string>, order: Option<int32>)
    ensures var c := Converted(r, chunk, order); var d := ChunkDocument(r, chunk, order);
      && KeyField in d && d[KeyField] == BoxGuid(c.indexRecordId)
      && "NoteChunk" in d && d["NoteChunk"] == BoxString(c.noteChunk)
      && OrderField in d && d[OrderField] == BoxInt32(c.noteChunkOrder)
      && VectorField in d
      && d[VectorField] == if IsNullOrWhiteSpace(c.noteChunk) then BoxFloats(c.noteChunkVector)
                           else Vec(Embedding(c.noteChunk.value))
  {
    var c := Converted(r, chunk, order);
    var fields := ApiModelsRecord.Fields(c);
    PropertyValues(c);
    assert fields[KeyField] == BoxGuid(c.indexRecordId);
    assert fields["NoteChunk"] == BoxString(c.noteChunk);
    assert fields[OrderField] == BoxInt32(c.noteChunkOrder);
    assert fields[VectorField] == BoxFloats(c.noteChunkVector);
  }

  /** Lines 235-237: the chunker's paragraphs, none for a note without HTML, `None` when the overlap overflows. */
  function SplitParagraphs(svc: Collaborators, settings: Settings, r: Record): Option<List<string>> {
    if IsNullOrWhiteSpace(r.noteInHtml) then Some([])
    else match OverlapTokens(settings)
      case None => None
      case Some(overlap) => Some(Paragraphs(svc, settings, r.noteInHtml.value, overlap, Some(svc.countTokens)))
  }

  /** Paragraph `i` becomes the document of a copy of `base`, drawing `Guid` `firstId + i`, with chunk `ps[i]` and order `i`. */
  function ParagraphDocument(base: Record, ps: List<string>, firstId: nat, i: nat): Document
    requires i < |ps|
  {
    ChunkDocument(ApiModelsRecord.Copy(base, None, None, Guid(firstId + i)), Some(ps[i]), Some(i as int32))
  }

  /** The document converted from the copy that drew `Guid` `firstId + i` is paragraph `i`'s. */
  lemma ParagraphDocumentIs(base: Record, ps: List<string>, firstId: nat, i: nat, id: Guid, doc: Document)
    requires i < |ps| && id == Guid(firstId + i)
    requires doc == ChunkDocument(ApiModelsRecord.Copy(base, None, None, id), Some(ps[i]), Some(i as int32))
    ensures doc == ParagraphDocument(base, ps, firstId, i)
  {
  }

  /** The documents of a split, one per paragraph. */
  function ParagraphDocuments(base: Record, ps: List<string>, firstId: nat): (docs: List<Document>)
    ensures |docs| == |ps|
  {
    seq(|ps|, i requires 0 <= i < |ps| => ParagraphDocument(base, ps, firstId, i))
  }

  /** What `RecursivelySplitNoteContent` returns when its copies draw `Guid`s from `firstId` on. */
  function SplitDocuments(svc: Collaborators, settings: Settings, r: Record, firstId: nat): Option<List<Document>> {
    match SplitParagraphs(svc, settings, r)
    case None => None
    case Some(ps) => Some(ParagraphDocuments(r, ps, firstId))
  }

  /** Lines 224-249: a copy of the note converted per paragraph. */
  method RecursivelySplitNoteContent(svc: Collaborators, settings: Settings, r: Record, guids: GuidSource)
    returns (docs: Option<List<Document>>)
    modifies guids
    ensures docs == SplitDocuments(svc, settings, r, old(guids.next))
    ensures guids.next == old(guids.next) + IdsDrawn(SplitParagraphs(svc, settings, r))
  {
    if IsNullOrWhiteSpace(r.noteInHtml) {
      return Some([]);
    }
    var overlap := OverlapTokens(settings);
    if overlap.None? {
      return None;
    }
    var paragraphs := Paragraphs(svc, settings, r.noteInHtml.value, overlap.value, Some(svc.countTokens));
    ghost var firstId := guids.next;
    var results: seq<Document> := [];
    for i := 0 to |paragraphs|
      invariant |results| == i && guids.next == firstId + i
      invariant forall j | 0 <= j < i :: results[j] == ParagraphDocument(r, paragraphs, firstId, j)
    {
      var id := guids.NewGuid();
      assert id == Guid(firstId + i);
      var doc := ConvertToSearchDocument(ApiModelsRecord.Copy(r, None, None, id), Some(paragraphs[i]), Some(i as int32));
      ParagraphDocumentIs(r, paragraphs, firstId, i, id, doc);
      results := results + [doc];
    }
    docs := Some(results);
    assert results == ParagraphDocuments(r, paragraphs, firstId);
  }

  /** How many `Guid`s a split draws: one per paragraph. */
  function IdsDrawn(paragraphs: Option<List<string>>): nat {
    match paragraphs
    case None => 0
    case Some(ps) => |ps|
  }

  /** Line 177: the note is split when its chunk source counts more than `MaxChunkSize` tokens. */
  predicate Splits(svc: Collaborators, settings: Settings, r: Record) {
    svc.countTokens(ChunkSource(r)) > settings.maxChunkSize
  }

  /** Lines 186-187: the whole chunk source as chunk 0. */
  function FastPathRecord(r: Record): Record {
    r.(noteChunk := Some(ChunkSource(r)), noteChunkOrder := Some(0))
  }

  /** The documents of one record, a split drawing `Guid`s from `firstId` on. */
  function NoteDocuments(svc: Collaborators, settings: Settings, r: Record, firstId: nat): Option<List<Document>> {
    if Splits(svc, settings, r) then SplitDocuments(svc, settings, r, firstId)
    else Some([ChunkDocument(FastPathRecord(r), None, None)])
  }

  /** How many `Guid`s the documents of one record draw. */
  function NoteIdsDrawn(svc: Collaborators, settings: Settings, r: Record): nat {
    if Splits(svc, settings, r) then IdsDrawn(SplitParagraphs(svc, settings, r)) else 0
  }

  /** Lines 171-189, the body of the record loop. */
  method LoadNote(svc: Collaborators, settings: Settings, r: Record, guids: GuidSource) returns (docs: Option<List<Document>>)
    modifies guids
    ensures docs == NoteDocuments(svc, settings, r, old(guids.next))
    ensures guids.next == old(guids.next) + NoteIdsDrawn(svc, settings, r)
  {
    var content := if !IsNullOrWhiteSpace(r.noteInHtml) then r.noteInHtml.value else "";
    if svc.countTokens(content) > settings.maxChunkSize {
      docs := RecursivelySplitNoteContent(svc, settings, r, guids);
    } else {
      var document := r.(noteChunk := Some(content), noteChunkOrder := Some(0));
      var doc := ConvertToSearchDocument(document, None, None);
      docs := Some([doc]);
    }
  }

  /**
   * The fast path: one document, holding the chunk source as its chunk, order 0 and the record's
   * own key, embedded exactly when the note has HTML text.
   */
  lemma FastPathIsOneChunk(svc: Collaborators, settings: Settings, r: Record, firstId: nat)
    requires !Splits(svc, settings, r)
    ensures NoteDocuments(svc, settings, r, firstId).Some?
    ensures var docs := NoteDocuments(svc, settings, r, firstId).value;
      && |docs| == 1
      && docs[0][OrderField] == Int32(0)
      && docs[0]["NoteChunk"] == Str(ChunkSource(r))
      && docs[0][KeyField] == BoxGuid(r.indexRecordId)
      && (IsEmbedding(docs[0][VectorField]) <==> !IsNullOrWhiteSpace(r.noteInHtml))
      && (!IsNullOrWhiteSpace(r.noteInHtml) ==> docs[0][VectorField] == Vec(Embedding(r.noteInHtml.value)))
  {
    var fast := FastPathRecord(r);
    ChunkDocumentFields(fast, None, None);
    assert Converted(fast, None, None) == fast;
  }

  /** A vector field holding a generated embedding. */
  predicate IsEmbedding(v: Value) {
    v.Vec? && v.v.Embedding?
  }

  /**
   * Paragraph document `i`: order `i`, the fresh `Guid` `firstId + i` as key, the paragraph as
   * chunk when it has text (else the note's own chunk), embedded exactly when its chunk has text.
   */
  lemma ParagraphDocumentAt(base: Record, ps: List<string>, firstId: nat, i: nat)
    requires i < |ps|
    ensures var d := ParagraphDocuments(base, ps, firstId)[i];
      var chunk := if IsNullOrWhiteSpace(Some(ps[i])) then base.noteChunk else Some(ps[i]);
      && d[OrderField] == Int32(i as int32)
      && d[KeyField] == GuidValue(Guid(firstId + i))
      && d["NoteChunk"] == BoxString(chunk)
      && (IsEmbedding(d[VectorField]) <==> !IsNullOrWhiteSpace(chunk))
  {
    var copy := ApiModelsRecord.Copy(base, None, None, Guid(firstId + i));
    ApiModelsRecord.CopyTakesFreshId(base, None, None, Guid(firstId + i));
    ChunkDocumentFields(copy, Some(ps[i]), Some(i as int32));
  }

  /** The paragraph documents of one split are keyed by pairwise different fresh `Guid`s. */
  lemma ParagraphKeysDistinct(base: Record, ps: List<string>, firstId: nat)
    ensures DistinctKeys(ParagraphDocuments(base, ps, firstId))
  {
    var docs := ParagraphDocuments(base, ps, firstId);
    forall i, j | 0 <= i < j < |docs| && KeyOf(docs[i]).Some? ensures KeyOf(docs[i]) != KeyOf(docs[j]) {
      ParagraphDocumentAt(base, ps, firstId, i);
      ParagraphDocumentAt(base, ps, firstId, j);
      if KeyOf(docs[i]) == KeyOf(docs[j]) {
        GuidTextInjective(Guid(firstId + i), Guid(firstId + j));
      }
    }
  }

  /** A split note without HTML text yields no documents and draws no `Guid`. */
  lemma SplitWithoutHtmlIsEmpty(svc: Collaborators, settings: Settings, r: Record, firstId: nat)
    requires Splits(svc, settings, r) && IsNullOrWhiteSpace(r.noteInHtml)
    ensures NoteDocuments(svc, settings, r, firstId) == Some([])
    ensures NoteIdsDrawn(svc, settings, r) == 0
  {
  }

  // ---------------------------------------------------------------------------------------
  // The batch

  /** The batch built so far, the next `Guid` serial, and whether an overlap conversion threw. */
  datatype Loaded = Loaded(batch: seq<Document>, nextId: nat, overflow: bool)

  /** Lines 167-192: each record's documents appended in record order; an overflow ends the run. */
  function Batch(svc: Collaborators, settings: Settings, records: seq<Record>, firstId: nat): Loaded
    decreases |records|
  {
    if records == [] then Loaded([], firstId, false)
    else
      var before := Batch(svc, settings, records[..|records| - 1], firstId);
      if before.overflow then before
      else
        var r := records[|records| - 1];
        match NoteDocuments(svc, settings, r, before.nextId)
        case None => before.(overflow := true)
        case Some(docs) => Loaded(before.batch + docs, before.nextId + NoteIdsDrawn(svc, settings, r), false)
  }

  /** One more record: its documents are appended, drawing `Guid`s where the prefix stopped. */
  lemma BatchStep(svc: Collaborators, settings: Settings, records: seq<Record>, i: nat, firstId: nat)
    requires i < |records| && !Batch(svc, settings, records[..i], firstId).overflow
    ensures var before := Batch(svc, settings, records[..i], firstId);
      Batch(svc, settings, records[..i + 1], firstId) ==
        match NoteDocuments(svc, settings, records[i], before.nextId)
        case None => before.(overflow := true)
        case Some(docs) => Loaded(before.batch + docs, before.nextId + NoteIdsDrawn(svc, settings, records[i]), false)
  {
    assert records[..i + 1][..i] == records[..i];
  }

  /** Once a prefix of the records overflows, the remaining records are not looked at. */
  lemma {:induction false} BatchStops(svc: Collaborators, settings: Settings, records: seq<Record>, n: nat, firstId: nat)
    requires n <= |records| && Batch(svc, settings, records[..n], firstId).overflow
    ensures Batch(svc, settings, records, firstId) == Batch(svc, settings, records[..n], firstId)
    decreases |records|
  {
    if n < |records| {
      var init := records[..|records| - 1];
      assert init[..n] == records[..n];
      BatchStops(svc, settings, init, n, firstId);
    } else {
      assert records[..n] == records;
    }
  }

  /** Lines 167-192: the record loop accumulating `sampleDocuments`. */
  method BuildBatch(svc: Collaborators, settings: Settings, records: seq<Record>, guids: GuidSource)
    returns (batch: seq<Document>, overflow: bool)
    modifies guids
    ensures Batch(svc, settings, records, old(guids.next)) == Loaded(batch, guids.next, overflow)
  {
    ghost var firstId := guids.next;
    batch := [];
    for i := 0 to |records|
      invariant Batch(svc, settings, records[..i], firstId) == Loaded(batch, guids.next, false)
    {
      BatchStep(svc, settings, records, i, firstId);
      var docs := LoadNote(svc, settings, records[i], guids);
      if docs.None? {
        BatchStops(svc, settings, records, i + 1, firstId);
        return batch, true;
      }
      batch := batch + docs.value;
    }
    assert records[..|records|] == records;
    overflow := false;
  }

  /** A note whose conversion of the overlap would throw: one that is split and has HTML text. */
  predicate Overflows(svc: Collaborators, settings: Settings, r: Record) {
    Splits(svc, settings, r) && !IsNullOrWhiteSpace(r.noteInHtml) && OverlapTokens(settings).None?
  }

  /** The batch overflows exactly when some record overflows. */
  lemma {:induction false} BatchOverflowsIff(svc: Collaborators, settings: Settings, records: seq<Record>, firstId: nat)
    ensures Batch(svc, settings, records, firstId).overflow <==>
      exists i | 0 <= i < |records| :: Overflows(svc, settings, records[i])
    decreases |records|
  {
    if records != [] {
      var init := records[..|records| - 1];
      BatchOverflowsIff(svc, settings, init, firstId);
      assert forall i | 0 <= i < |init| :: init[i] == records[i];
      if exists i | 0 <= i < |records| :: Overflows(svc, settings, records[i]) {
        var i :| 0 <= i < |records| && Overflows(svc, settings, records[i]);
        if i < |init| {
          assert Overflows(svc, settings, init[i]);
        }
      }
    }
  }

  /**
   * Loading two runs of records one after the other is loading their concatenation: the batch
   * of `a + b` is the batch of `a` followed by that of `b`, its `Guid`s drawn where `a` stopped.
   */
  lemma {:induction false} BatchAppend(svc: Collaborators, settings: Settings, a: seq<Record>, b: seq<Record>, firstId: nat)
    requires !Batch(svc, settings, a, firstId).overflow
    ensures var first := Batch(svc, settings, a, firstId);
      var second := Batch(svc, settings, b, first.nextId);
      Batch(svc, settings, a + b, firstId) == Loaded(first.batch + second.batch, second.nextId, second.overflow)
    decreases |b|
  {
    var first := Batch(svc, settings, a, firstId);
    if b == [] {
      assert a + b == a;
    } else {
      var init, r := b[..|b| - 1], b[|b| - 1];
      BatchAppend(svc, settings, a, init, firstId);
      var second := Batch(svc, settings, init, first.nextId);
      assert (a + b)[..|a + b| - 1] == a + init && (a + b)[|a + b| - 1] == r;
      var docs := NoteDocuments(svc, settings, r, second.nextId);
      if !second.overflow && docs.Some? {
        AppendAssociates(first.batch, second.batch, docs.value);
      }
    }
  }

  lemma AppendAssociates(x: seq<Document>, y: seq<Document>, z: seq<Document>)
    ensures x + y + z == x + (y + z)
  {
  }

  /** The batch of a single record is its documents. */
  lemma BatchOfOne(svc: Collaborators, settings: Settings, r: Record, firstId: nat)
    ensures var l := Batch(svc, settings, [r], firstId);
      && (l.overflow <==> NoteDocuments(svc, settings, r, firstId).None?)
      && (!l.overflow ==> l.batch == NoteDocuments(svc, settings, r, firstId).value)
  {
    assert [r][..0] == [];
  }

  // ---------------------------------------------------------------------------------------
  // The run

  /** How a run ends. */
  datatype Outcome =
    | DeserializeFailed   // a value of the stream did not deserialise; nothing catches it
    | OverlapOverflow     // Convert.ToInt32 of the overlap threw; nothing catches it
    | Uploaded(batch: seq<Document>)

  /**
   * `RunAsync` and `LoadIndexAsync`: the index reset, the stream `read` from the cleaned blob
   * (one entry per JSON value), the batch built and uploaded; the `AggregateException` of failed
   * actions is swallowed, so those actions just change nothing.
   */
  method Run(index: SearchIndex, guids: GuidSource, environment: Option<string>,
             read: string -> seq<Deserialized<Record>>, svc: Collaborators, settings: Settings, content: string)
    returns (outcome: Outcome)
    modifies index, guids
    ensures var parsed := ReadRecords(read(Cleaned(content)), old(guids.next));
      var loaded := Batch(svc, settings, parsed.records, parsed.nextId);
      && outcome == (if parsed.threw then DeserializeFailed
                     else if loaded.overflow then OverlapOverflow
                     else Uploaded(loaded.batch))
      && guids.next == (if parsed.threw then parsed.nextId else loaded.nextId)
    ensures index.docs == if outcome.Uploaded? then Indexed(Reset(old(index.docs), environment), Upload, outcome.batch)
                          else Reset(old(index.docs), environment)
  {
    var cleaned := Cleaned(content);
    if !IsProduction(environment) {
      index.Recreate();
    }
    var records, threw := ReadAll(read(cleaned), guids);
    if threw {
      return DeserializeFailed;
    }
    var batch, overflow := BuildBatch(svc, settings, records, guids);
    if overflow {
      return OverlapOverflow;
    }
    index.IndexDocuments(Upload, batch);
    outcome := Uploaded(batch);
  }
}
