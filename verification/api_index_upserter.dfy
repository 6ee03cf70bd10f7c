/**
 * `Api.IndexUpserter`: the first NDJSON batch loader. It always drops and recreates the index,
 * reads the blob as is, and embeds the whole note (not the chunk) into every document.
 */
module ApiIndexUpserter {
  import opened Wrappers
  import opened Text
  import opened Values
  import opened Chunking
  import opened SearchIndexes
  import ApiModelsRecord
  import Loader = ApiFunctionsIndexUpserter

  type Record = ApiModelsRecord.SourceNoteRecord

  const OrderField: string := "NoteChunkOrder"
  const VectorField: string := "NoteChunkVector"

  /**
   * Lines 200-211: the record's dictionary with the vector set to the embedding of the whole
   * `NoteInHtml` (or of the empty string), whatever the chunk.
   */
  function ChunkDocument(r: Record): Document {
    ApiModelsRecord.Fields(r)[VectorField := Vec(Embedding(Loader.ChunkSource(r)))]
  }

  /** Lines 200-211. */
  method ConvertToSearchDocument(r: Record) returns (d: Document)
    ensures d == ChunkDocument(r)
  {
    d := ApiModelsRecord.ToDictionary(r);
    var content := if !IsNullOrWhiteSpace(r.noteInHtml) then r.noteInHtml.value else "";
    d := d[VectorField := Vec(Embedding(content))];
  }

  /** Lines 240-243: a copy of `base` drawing `Guid` `firstId + i`, with chunk `ps[i]` and order `i`. */
  function SplitRecord(base: Record, ps: List<string>, firstId: nat, i: nat): Record
    requires i < |ps|
  {
    ApiModelsRecord.Copy(base, None, None, Guid(firstId + i)).(noteChunk := Some(ps[i]), noteChunkOrder := Some(i as int32))
  }

  /** The documents of a split, one per paragraph. */
  function ParagraphDocuments(base: Record, ps: List<string>, firstId: nat): (docs: List<Document>)
    ensures |docs| == |ps|
  {
    seq(|ps|, i requires 0 <= i < |ps| => ChunkDocument(SplitRecord(base, ps, firstId, i)))
  }

  /**
   * Lines 215-233: the chunker's paragraphs, here without a token counter; none for a note
   * without HTML, `None` when the overlap overflows.
   */
  function SplitParagraphs(svc: Collaborators, settings: Settings, r: Record): Option<List<string>> {
    if IsNullOrWhiteSpace(r.noteInHtml) then Some([])
    else match OverlapTokens(settings)
      case None => None
      case Some(overlap) => Some(Paragraphs(svc, settings, r.noteInHtml.value, overlap, None))
  }

  /** What `RecursivelySplitNoteContent` returns when its copies draw `Guid`s from `firstId` on. */
  function SplitDocuments(svc: Collaborators, settings: Settings, r: Record, firstId: nat): Option<List<Document>> {
    match SplitParagraphs(svc, settings, r)
    case None => None
    case Some(ps) => Some(ParagraphDocuments(r, ps, firstId))
  }

  /** Lines 213-250: the `for` loop over the paragraphs, one copy per paragraph. */
  method RecursivelySplitNoteContent(svc: Collaborators, settings: Settings, r: Record, guids: GuidSource)
    returns (docs: Option<List<Document>>)
    modifies guids
    ensures docs == SplitDocuments(svc, settings, r, old(guids.next))
    ensures guids.next == old(guids.next) + Loader.IdsDrawn(SplitParagraphs(svc, settings, r))
  {
    if IsNullOrWhiteSpace(r.noteInHtml) {
      return Some([]);
    }
    var overlap := OverlapTokens(settings);
    if overlap.None? {
      return None;
    }
    var paragraphs := Paragraphs(svc, settings, r.noteInHtml.value, overlap.value, None);
    ghost var firstId := guids.next;
    var results: seq<Document> := [];
    var i := 0;
    while i < |paragraphs|
      invariant i <= |paragraphs|
      invariant |results| == i && guids.next == firstId + i
      invariant forall j | 0 <= j < i :: results[j] == ChunkDocument(SplitRecord(r, paragraphs, firstId, j))
    {
      var p := paragraphs[i];
      var id := guids.NewGuid();
      var split := ApiModelsRecord.Copy(r, None, None, id);
      split := split.(noteChunk := Some(p));
      split := split.(noteChunkOrder := Some(i as int32));
      assert split == SplitRecord(r, paragraphs, firstId, i);
      var searchDoc := ConvertToSearchDocument(split);
      results := results + [searchDoc];
      i := i + 1;
    }
    docs := Some(results);
    assert results == ParagraphDocuments(r, paragraphs, firstId);
  }

  /** Line 175: the note is split when its chunk source counts more than `MaxChunkSize` tokens. */
  predicate Splits(svc: Collaborators, settings: Settings, r: Record) {
    svc.countTokens(Loader.ChunkSource(r)) > settings.maxChunkSize
  }

  /** Lines 181-182: the whole chunk source as chunk 0. */
  function FastPathRecord(r: Record): Record {
    r.(noteChunk := Some(Loader.ChunkSource(r)), noteChunkOrder := Some(0))
  }

  /** The documents of one record, a split drawing `Guid`s from `firstId` on. */
  function NoteDocuments(svc: Collaborators, settings: Settings, r: Record, firstId: nat): Option<List<Document>> {
    if Splits(svc, settings, r) then SplitDocuments(svc, settings, r, firstId)
    else Some([ChunkDocument(FastPathRecord(r))])
  }

  /** How many `Guid`s the documents of one record draw. */
  function NoteIdsDrawn(svc: Collaborators, settings: Settings, r: Record): nat {
    if Splits(svc, settings, r) then Loader.IdsDrawn(SplitParagraphs(svc, settings, r)) else 0
  }

  /** Lines 169-184, the body of the record loop. */
  method LoadNote(svc: Collaborators, settings: Settings, r: Record, guids: GuidSource) returns (docs: Option<List<Document>>)
    modifies guids
    ensures docs == NoteDocuments(svc, settings, r, old(guids.next))
    ensures guids.next == old(guids.next) + NoteIdsDrawn(svc, settings, r)
  {
    var content := if !IsNullOrWhiteSpace(r.noteInHtml) then r.noteInHtml.value else "";
    if svc.countTokens(content) > settings.maxChunkSize {
      docs := RecursivelySplitNoteContent(svc, settings, r, guids);
    } else {
      var document := r.(noteChunk := Some(content), noteChunkOrder := Some(0));
      var doc := ConvertToSearchDocument(document);
      docs := Some([doc]);
    }
  }

  /** The boxed values of the properties the lemmas below read. */
  lemma PropertyValues(c: Record)
    ensures ApiModelsRecord.PropertyValue(c, KeyField) == BoxGuid(c.indexRecordId)
    ensures ApiModelsRecord.PropertyValue(c, "NoteChunk") == BoxString(c.noteChunk)
    ensures ApiModelsRecord.PropertyValue(c, OrderField) == BoxInt32(c.noteChunkOrder)
  {
  }

  /** A document stores the record's key, chunk and order, and the embedding of the record's chunk source. */
  lemma ChunkDocumentFields(r: Record)
    ensures var d := ChunkDocument(r);
      && KeyField in d && d[KeyField] == BoxGuid(r.indexRecordId)
      && "NoteChunk" in d && d["NoteChunk"] == BoxString(r.noteChunk)
      && OrderField in d && d[OrderField] == BoxInt32(r.noteChunkOrder)
      && VectorField in d && d[VectorField] == Vec(Embedding(Loader.ChunkSource(r)))
  {
    var fields := ApiModelsRecord.Fields(r);
    PropertyValues(r);
    assert fields[KeyField] == BoxGuid(r.indexRecordId);
    assert fields["NoteChunk"] == BoxString(r.noteChunk);
    assert fields[OrderField] == BoxInt32(r.noteChunkOrder);
  }

  /** A paragraph's copy keeps the note's HTML, so it has the note's chunk source. */
  lemma SplitRecordKeepsHtml(base: Record, ps: List<string>, firstId: nat, i: nat)
    requires i < |ps|
    ensures SplitRecord(base, ps, firstId, i).noteInHtml == base.noteInHtml
    ensures SplitRecord(base, ps, firstId, i).indexRecordId == Some(Guid(firstId + i))
  {
    var copy := ApiModelsRecord.Copy(base, None, None, Guid(firstId + i));
    assert ApiModelsRecord.PropertyValue(copy, "NoteInHtml") == ApiModelsRecord.PropertyValue(base, "NoteInHtml");
    ApiModelsRecord.CopyTakesFreshId(base, None, None, Guid(firstId + i));
  }

  /**
   * Paragraph document `i`: order `i`, the fresh `Guid` `firstId + i` as key, and the paragraph
   * itself as chunk, even when it is white space.
   */
  lemma ParagraphDocumentAt(base: Record, ps: List<string>, firstId: nat, i: nat)
    requires i < |ps|
    ensures var d := ParagraphDocuments(base, ps, firstId)[i];
      && d[OrderField] == Int32(i as int32)
      && d[KeyField] == GuidValue(Guid(firstId + i))
      && d["NoteChunk"] == Str(ps[i])
  {
    SplitRecordKeepsHtml(base, ps, firstId, i);
    ChunkDocumentFields(SplitRecord(base, ps, firstId, i));
  }

  /** The paragraph documents of one split are keyed by pairwise different fresh `Guid`s. */
  lemma ParagraphKeysDistinct(base: Record, ps: List<string>, firstId: nat)
    ensures DistinctKeys(ParagraphDocuments(base, ps, firstId))
  {
    var docs := ParagraphDocuments(base, ps, firstId);
    forall i, j | 0 <= i < j < |docs| && KeyOf(docs[i]).Some? ensures KeyOf(docs[i]) != KeyOf(docs[j]) {
      ParagraphDocumentAt(base, ps, firstId, i);
      ParagraphDocumentAt(base, ps, firstId, j);
      if KeyOf(docs[i]) == KeyOf(docs[j]) {
        GuidTextInjective(Guid(firstId + i), Guid(firstId + j));
      }
    }
  }

  /**
   * Every document of a note, split or not, carries the embedding of the whole note's chunk
   * source: the chunks of one note share one embedding input.
   */
  lemma NoteDocumentsShareEmbedding(svc: Collaborators, settings: Settings, r: Record, firstId: nat)
    ensures var docs := NoteDocuments(svc, settings, r, firstId);
      docs.Some? ==> forall i | 0 <= i < |docs.value| ::
        VectorField in docs.value[i] && docs.value[i][VectorField] == Vec(Embedding(Loader.ChunkSource(r)))
  {
    if Splits(svc, settings, r) {
      var ps := SplitParagraphs(svc, settings, r);
      if ps.Some? {
        var docs := ParagraphDocuments(r, ps.value, firstId);
        assert NoteDocuments(svc, settings, r, firstId) == Some(docs);
        forall i | 0 <= i < |docs|
          ensures VectorField in docs[i] && docs[i][VectorField] == Vec(Embedding(Loader.ChunkSource(r)))
        {
          SplitRecordKeepsHtml(r, ps.value, firstId, i);
          ChunkDocumentFields(SplitRecord(r, ps.value, firstId, i));
        }
      }
    } else {
      ChunkDocumentFields(FastPathRecord(r));
    }
  }

  /** The fast path: one document, holding the chunk source as its chunk, order 0 and the record's own key. */
  lemma FastPathIsOneChunk(svc: Collaborators, settings: Settings, r: Record, firstId: nat)
    requires !Splits(svc, settings, r)
    ensures NoteDocuments(svc, settings, r, firstId).Some?
    ensures var docs := NoteDocuments(svc, settings, r, firstId).value;
      && |docs| == 1
      && docs[0][OrderField] == Int32(0)
      && docs[0]["NoteChunk"] == Str(Loader.ChunkSource(r))
      && docs[0][KeyField] == BoxGuid(r.indexRecordId)
  {
    ChunkDocumentFields(FastPathRecord(r));
  }

  /** A split note without HTML text yields no documents and draws no `Guid`. */
  lemma SplitWithoutHtmlIsEmpty(svc: Collaborators, settings: Settings, r: Record, firstId: nat)
    requires Splits(svc, settings, r) && IsNullOrWhiteSpace(r.noteInHtml)
    ensures NoteDocuments(svc, settings, r, firstId) == Some([])
    ensures NoteIdsDrawn(svc, settings, r) == 0
  {
  }

  /** Lines 163-187: each record's documents appended in record order; an overflow ends the run. */
  function Batch(svc: Collaborators, settings: Settings, records: seq<Record>, firstId: nat): Loader.Loaded
    decreases |records|
  {
    if records == [] then Loader.Loaded([], firstId, false)
    else
      var before := Batch(svc, settings, records[..|records| - 1], firstId);
      if before.overflow then before
      else
        var r := records[|records| - 1];
        match NoteDocuments(svc, settings, r, before.nextId)
        case None => before.(overflow := true)
        case Some(docs) => Loader.Loaded(before.batch + docs, before.nextId + NoteIdsDrawn(svc, settings, r), false)
  }

  /** One more record: its documents are appended, drawing `Guid`s where the prefix stopped. */
  lemma BatchStep(svc: Collaborators, settings: Settings, records: seq<Record>, i: nat, firstId: nat)
    requires i < |records| && !Batch(svc, settings, records[..i], firstId).overflow
    ensures var before := Batch(svc, settings, records[..i], firstId);
      Batch(svc, settings, records[..i + 1], firstId) ==
        match NoteDocuments(svc, settings, records[i], before.nextId)
        case None => before.(overflow := true)
        case Some(docs) => Loader.Loaded(before.batch + docs, before.nextId + NoteIdsDrawn(svc, settings, records[i]), false)
  {
    assert records[..i + 1][..i] == records[..i];
  }

  /** Once a prefix of the records overflows, the remaining records are not looked at. */
  lemma {:induction false} BatchStops(svc: Collaborators, settings: Settings, records: seq<Record>, n: nat, firstId: nat)
    requires n <= |records| && Batch(svc, settings, records[..n], firstId).overflow
    ensures Batch(svc, settings, records, firstId) == Batch(svc, settings, records[..n], firstId)
    decreases |records|
  {
    if n < |records| {
      var init := records[..|records| - 1];
      assert init[..n] == records[..n];
      BatchStops(svc, settings, init, n, firstId);
    } else {
      assert records[..n] == records;
    }
  }

  /** Lines 163-187: the record loop accumulating `sampleDocuments`. */
  method BuildBatch(svc: Collaborators, settings: Settings, records: seq<Record>, guids: GuidSource)
    returns (batch: seq<Document>, overflow: bool)
    modifies guids
    ensures Batch(svc, settings, records, old(guids.next)) == Loader.Loaded(batch, guids.next, overflow)
  {
    ghost var firstId := guids.next;
    batch := [];
    for i := 0 to |records|
      invariant Batch(svc, settings, records[..i], firstId) == Loader.Loaded(batch, guids.next, false)
    {
      BatchStep(svc, settings, records, i, firstId);
      var docs := LoadNote(svc, settings, records[i], guids);
      if docs.None? {
        BatchStops(svc, settings, records, i + 1, firstId);
        return batch, true;
      }
      batch := batch + docs.value;
    }
    assert records[..|records|] == records;
    overflow := false;
  }

  /**
   * Loading two runs of records one after the other is loading their concatenation: the batch
   * of `a + b` is the batch of `a` followed by that of `b`, its `Guid`s drawn where `a` stopped.
   */
  lemma {:induction false} BatchAppend(svc: Collaborators, settings: Settings, a: seq<Record>, b: seq<Record>, firstId: nat)
    requires !Batch(svc, settings, a, firstId).overflow
    ensures var first := Batch(svc, settings, a, firstId);
      var second := Batch(svc, settings, b, first.nextId);
      Batch(svc, settings, a + b, firstId) == Loader.Loaded(first.batch + second.batch, second.nextId, second.overflow)
    decreases |b|
  {
    var first := Batch(svc, settings, a, firstId);
    if b == [] {
      assert a + b == a;
    } else {
      var init, r := b[..|b| - 1], b[|b| - 1];
      BatchAppend(svc, settings, a, init, firstId);
      var second := Batch(svc, settings, init, first.nextId);
      assert (a + b)[..|a + b| - 1] == a + init && (a + b)[|a + b| - 1] == r;
      var docs := NoteDocuments(svc, settings, r, second.nextId);
      if !second.overflow && docs.Some? {
        Loader.AppendAssociates(first.batch, second.batch, docs.value);
      }
    }
  }

  /** How a run ends; every exception is logged and rethrown. */
  datatype Outcome =
    | DeserializeFailed   // a value of the stream did not deserialise
    | OverlapOverflow     // Convert.ToInt32 of the overlap threw
    | Uploaded(batch: seq<Document>)

  /**
   * `RunAsync` and `LoadIndexAsync`: the index dropped and recreated, the stream `read` from the
   * blob as is (one entry per JSON value), the batch built and uploaded; actions that fail
   * change nothing, and the upload raises no exception for them.
   */
  method Run(index: SearchIndex, guids: GuidSource, read: string -> seq<Deserialized<Record>>,
             svc: Collaborators, settings: Settings, content: string) returns (outcome: Outcome)
    modifies index, guids
    ensures var parsed := Loader.ReadRecords(read(content), old(guids.next));
      var loaded := Batch(svc, settings, parsed.records, parsed.nextId);
      && outcome == (if parsed.threw then DeserializeFailed
                     else if loaded.overflow then OverlapOverflow
                     else Uploaded(loaded.batch))
      && guids.next == (if parsed.threw then parsed.nextId else loaded.nextId)
    ensures index.docs == if outcome.Uploaded? then Indexed(map[], Upload, outcome.batch) else map[]
  {
    index.Recreate();
    var records, threw := Loader.ReadAll(read(content), guids);
    if threw {
      return DeserializeFailed;
    }
    var batch, overflow := BuildBatch(svc, settings, records, guids);
    if overflow {
      return OverlapOverflow;
    }
    index.IndexDocuments(Upload, batch);
    outcome := Uploaded(batch);
  }
}
