/**
 * `IndexOrchestration.Functions.IndexUpserter`: one note record per blob, uploaded as one chunk
 * document or one document per paragraph. A blob that does not deserialise, or holds `null`,
 * uploads nothing.
 */
module OrchestrationIndexUpserter {
  import opened Wrappers
  import opened Text
  import opened Values
  import opened Chunking
  import opened SearchIndexes
  import OrchestrationRecord

  type Record = OrchestrationRecord.SourceNoteRecord

  const OrderField: string := "NoteChunkOrder"
  const VectorField: string := "NoteChunkVector"

  /** Line 59: `NoteContent` when it has text, otherwise the empty string. */
  function ChunkSource(r: Record): string {
    if IsNullOrWhiteSpace(r.noteContent) then "" else r.noteContent.value
  }

  /** The record as lines 137-141 leave it: a usable `chunk` and a non-null `order` override. */
  function Converted(r: Record, chunk: Option<string>, order: Option<int32>): Record {
    r.(noteChunk := if IsNullOrWhiteSpace(chunk) then r.noteChunk else chunk,
       noteChunkOrder := if order.None? then r.noteChunkOrder else order)
  }

  /** The search document of a converted record: its dictionary, plus the chunk's embedding when the chunk has text. */
  function ChunkDocument(r: Record, chunk: Option<string>, order: Option<int32>): Document {
    var c := Converted(r, chunk, order);
    var fields := OrchestrationRecord.Fields(c);
    if IsNullOrWhiteSpace(c.noteChunk) then fields
    else fields[VectorField := Vec(Embedding(c.noteChunk.value))]
  }

  /** Lines 135-155: the overrides, the dictionary and the embedding guard. */
  method ConvertToSearchDocument(r: Record, chunk: Option<string>, order: Option<int32>) returns (d: Document)
    ensures d == ChunkDocument(r, chunk, order)
  {
    var note := r;
    if !IsNullOrWhiteSpace(chunk) {
      note := note.(noteChunk := chunk);
    }
    if order.Some? {
      note := note.(noteChunkOrder := order);
    }
    d := OrchestrationRecord.ToDictionary(note);
    if !IsNullOrWhiteSpace(note.noteChunk) {
      d := d[VectorField := Vec(Embedding(note.noteChunk.value))];
    }
  }

  /** The boxed values of the properties the lemmas below read. */
  lemma PropertyValues(c: Record)
    ensures OrchestrationRecord.PropertyValue(c, KeyField) == BoxGuid(c.indexRecordId)
    ensures OrchestrationRecord.PropertyValue(c, "NoteChunk") == BoxString(c.noteChunk)
    ensures OrchestrationRecord.PropertyValue(c, OrderField) == BoxInt32(c.noteChunkOrder)
    ensures OrchestrationRecord.PropertyValue(c, VectorField) == BoxFloats(c.noteChunkVector)
  {
  }

  /**
   * A chunk document stores the converted record's key, chunk and order; its vector is the
   * embedding of the chunk when the chunk has text, and the record's own vector otherwise.
   */
  lemma ChunkDocumentFields(r: Record, chunk: Option<string>, order: Option<int32>)
    ensures var c := Converted(r, chunk, order); var d := ChunkDocument(r, chunk, order);
      && KeyField in d && d[KeyField] == BoxGuid(c.indexRecordId)
      && "NoteChunk" in d && d["NoteChunk"] == BoxString(c.noteChunk)
      && OrderField in d && d[OrderField] == BoxInt32(c.noteChunkOrder)
      && VectorField in d
      && d[VectorField] == if IsNullOrWhiteSpace(c.noteChunk) then BoxFloats(c.noteChunkVector)
                           else Vec(Embedding(c.noteChunk.value))
  {
    var c := Converted(r, chunk, order);
    var fields := OrchestrationRecord.Fields(c);
    PropertyValues(c);
    assert fields[KeyField] == BoxGuid(c.indexRecordId);
    assert fields["NoteChunk"] == BoxString(c.noteChunk);
    assert fields[OrderField] == BoxInt32(c.noteChunkOrder);
    assert fields[VectorField] == BoxFloats(c.noteChunkVector);
  }

  /** Lines 119-121: the chunker's paragraphs, none for a note without content, `None` when the overlap overflows. */
  function SplitParagraphs(svc: Collaborators, settings: Settings, r: Record): Option<List<string>> {
    if IsNullOrWhiteSpace(r.noteContent) then Some([])
    else match OverlapTokens(settings)
      case None => None
      case Some(overlap) => Some(Paragraphs(svc, settings, r.noteContent.value, overlap, Some(svc.countTokens)))
  }

  /** Paragraph `i` becomes the document of a copy of `base`, drawing `Guid` `firstId + i`, with chunk `ps[i]` and order `i`. */
  function ParagraphDocument(base: Record, ps: List<string>, firstId: nat, i: nat): Document
    requires i < |ps|
  {
    ChunkDocument(OrchestrationRecord.Copy(base, None, None, Guid(firstId + i)), Some(ps[i]), Some(i as int32))
  }

  /** The document converted from the copy that drew `Guid` `firstId + i` is paragraph `i`'s. */
  lemma ParagraphDocumentIs(base: Record, ps: List<string>, firstId: nat, i: nat, id: Guid, doc: Document)
    requires i < |ps| && id == Guid(firstId + i)
    requires doc == ChunkDocument(OrchestrationRecord.Copy(base, None, None, id), Some(ps[i]), Some(i as int32))
    ensures doc == ParagraphDocument(base, ps, firstId, i)
  {
  }

  /** The documents of a split, one per paragraph. */
  function ParagraphDocuments(base: Record, ps: List<string>, firstId: nat): (docs: List<Document>)
    ensures |docs| == |ps|
  {
    seq(|ps|, i requires 0 <= i < |ps| => ParagraphDocument(base, ps, firstId, i))
  }

  /** What `RecursivelySplitNoteContent` returns when its copies draw `Guid`s from `firstId` on. */
  function SplitDocuments(svc: Collaborators, settings: Settings, r: Record, firstId: nat): Option<List<Document>> {
    match SplitParagraphs(svc, settings, r)
    case None => None
    case Some(ps) => Some(ParagraphDocuments(r, ps, firstId))
  }

  /** How many `Guid`s a split draws: one per paragraph. */
  function IdsDrawn(paragraphs: Option<List<string>>): nat {
    match paragraphs
    case None => 0
    case Some(ps) => |ps|
  }

  /** Lines 108-133: a copy of the note converted per paragraph. */
  method RecursivelySplitNoteContent(svc: Collaborators, settings: Settings, r: Record, guids: GuidSource)
    returns (docs: Option<List<Document>>)
    modifies guids
    ensures docs == SplitDocuments(svc, settings, r, old(guids.next))
    ensures guids.next == old(guids.next) + IdsDrawn(SplitParagraphs(svc, settings, r))
  {
    if IsNullOrWhiteSpace(r.noteContent) {
      return Some([]);
    }
    var overlap := OverlapTokens(settings);
    if overlap.None? {
      return None;
    }
    var paragraphs := Paragraphs(svc, settings, r.noteContent.value, overlap.value, Some(svc.countTokens));
    ghost var firstId := guids.next;
    var results: seq<Document> := [];
    for i := 0 to |paragraphs|
      invariant |results| == i && guids.next == firstId + i
      invariant forall j | 0 <= j < i :: results[j] == ParagraphDocument(r, paragraphs, firstId, j)
    {
      var id := guids.NewGuid();
      assert id == Guid(firstId + i);
      var doc := ConvertToSearchDocument(OrchestrationRecord.Copy(r, None, None, id), Some(paragraphs[i]), Some(i as int32));
      ParagraphDocumentIs(r, paragraphs, firstId, i, id, doc);
      results := results + [doc];
    }
    docs := Some(results);
    assert results == ParagraphDocuments(r, paragraphs, firstId);
  }

  /** Line 62: the note is split when its chunk source counts more than `MaxChunkSize` tokens. */
  predicate Splits(svc: Collaborators, settings: Settings, r: Record) {
    svc.countTokens(ChunkSource(r)) > settings.maxChunkSize
  }

  /** Lines 71-72: the whole chunk source as chunk 0. */
  function FastPathRecord(r: Record): Record {
    r.(noteChunk := Some(ChunkSource(r)), noteChunkOrder := Some(0))
  }

  /** The documents of the note, a split drawing `Guid`s from `firstId` on; `None` is the overlap's OverflowException. */
  function NoteDocuments(svc: Collaborators, settings: Settings, r: Record, firstId: nat): Option<List<Document>> {
    if Splits(svc, settings, r) then SplitDocuments(svc, settings, r, firstId)
    else Some([ChunkDocument(FastPathRecord(r), None, None)])
  }

  /** How many `Guid`s the documents of the note draw. */
  function NoteIdsDrawn(svc: Collaborators, settings: Settings, r: Record): nat {
    if Splits(svc, settings, r) then IdsDrawn(SplitParagraphs(svc, settings, r)) else 0
  }

  /** A vector field holding a generated embedding. */
  predicate IsEmbedding(v: Value) {
    v.Vec? && v.v.Embedding?
  }

  /**
   * The fast path: one document, holding the chunk source as its chunk, order 0 and the record's
   * own key, embedded exactly when the note has text.
   */
  lemma FastPathIsOneChunk(svc: Collaborators, settings: Settings, r: Record, firstId: nat)
    requires !Splits(svc, settings, r)
    ensures NoteDocuments(svc, settings, r, firstId).Some?
    ensures var docs := NoteDocuments(svc, settings, r, firstId).value;
      && |docs| == 1
      && docs[0][OrderField] == Int32(0)
      && docs[0]["NoteChunk"] == Str(ChunkSource(r))
      && docs[0][KeyField] == BoxGuid(r.indexRecordId)
      && (IsEmbedding(docs[0][VectorField]) <==> !IsNullOrWhiteSpace(r.noteContent))
      && (!IsNullOrWhiteSpace(r.noteContent) ==> docs[0][VectorField] == Vec(Embedding(r.noteContent.value)))
  {
    var fast := FastPathRecord(r);
    ChunkDocumentFields(fast, None, None);
    assert Converted(fast, None, None) == fast;
  }

  /**
   * Paragraph document `i`: order `i`, the fresh `Guid` `firstId + i` as key, the paragraph as
   * chunk when it has text (else the note's own chunk), embedded exactly when its chunk has text.
   */
  lemma ParagraphDocumentAt(base: Record, ps: List<string>, firstId: nat, i: nat)
    requires i < |ps|
    ensures var d := ParagraphDocuments(base, ps, firstId)[i];
      var chunk := if IsNullOrWhiteSpace(Some(ps[i])) then base.noteChunk else Some(ps[i]);
      && d[OrderField] == Int32(i as int32)
      && d[KeyField] == GuidValue(Guid(firstId + i))
      && d["NoteChunk"] == BoxString(chunk)
      && (IsEmbedding(d[VectorField]) <==> !IsNullOrWhiteSpace(chunk))
  {
    var copy := OrchestrationRecord.Copy(base, None, None, Guid(firstId + i));
    OrchestrationRecord.CopyTakesFreshId(base, None, None, Guid(firstId + i));
    ChunkDocumentFields(copy, Some(ps[i]), Some(i as int32));
  }

  /** The paragraph documents of one split are keyed by pairwise different fresh `Guid`s. */
  lemma ParagraphKeysDistinct(base: Record, ps: List<string>, firstId: nat)
    ensures DistinctKeys(ParagraphDocuments(base, ps, firstId))
  {
    var docs := ParagraphDocuments(base, ps, firstId);
    forall i, j | 0 <= i < j < |docs| && KeyOf(docs[i]).Some? ensures KeyOf(docs[i]) != KeyOf(docs[j]) {
      ParagraphDocumentAt(base, ps, firstId, i);
      ParagraphDocumentAt(base, ps, firstId, j);
      if KeyOf(docs[i]) == KeyOf(docs[j]) {
        GuidTextInjective(Guid(firstId + i), Guid(firstId + j));
      }
    }
  }

  /** How a run ends. */
  datatype Outcome =
    | DeserializeFailed   // logged and returned
    | NullRecord          // the blob held `null`
    | OverlapOverflow     // Convert.ToInt32 of the overlap threw; nothing catches it
    | Uploaded(batch: List<Document>)

  /** What a run does with the value decoded from the blob, a split drawing `Guid`s from `firstId` on. */
  function Plan(decoded: Deserialized<Record>, svc: Collaborators, settings: Settings, firstId: nat): Outcome {
    match decoded
    case Throws => DeserializeFailed
    case NullLiteral => NullRecord
    case Parsed(r) =>
      match NoteDocuments(svc, settings, r, firstId)
      case None => OverlapOverflow
      case Some(docs) => Uploaded(docs)
  }

  /**
   * `RunAsync`: the blob decoded, the note's documents built, then uploaded; the
   * `AggregateException` of failed actions is swallowed, so those actions just change nothing.
   */
  method Run(index: SearchIndex, guids: GuidSource, decode: string -> Deserialized<Record>,
             svc: Collaborators, settings: Settings, json: string) returns (outcome: Outcome)
    modifies index, guids
    ensures outcome == Plan(decode(json), svc, settings, old(guids.next))
    ensures guids.next == old(guids.next) + match decode(json)
      case Parsed(r) => NoteIdsDrawn(svc, settings, r)
      case _ => 0
    ensures index.docs == if outcome.Uploaded? then Indexed(old(index.docs), Upload, outcome.batch) else old(index.docs)
  {
    var decoded := decode(json);
    if decoded.Throws? {
      return DeserializeFailed;
    }
    if decoded.NullLiteral? {
      return NullRecord;
    }
    var record := decoded.value;
    var content := if !IsNullOrWhiteSpace(record.noteContent) then record.noteContent.value else "";
    var docs: Option<List<Document>>;
    if svc.countTokens(content) > settings.maxChunkSize {
      docs := RecursivelySplitNoteContent(svc, settings, record, guids);
    } else {
      record := record.(noteChunk := Some(content), noteChunkOrder := Some(0));
      var doc := ConvertToSearchDocument(record, None, None);
      docs := Some([doc]);
    }
    if docs.None? {
      return OverlapOverflow;
    }
    index.IndexDocuments(Upload, docs.value);
    outcome := Uploaded(docs.value);
  }

  /**
   * Only a note whose documents could be built is uploaded, and what is uploaded is exactly
   * those documents: one chunk of order 0 on the fast path, paragraph `i` as chunk `i` else.
   */
  lemma UploadedIsTheNotesDocuments(decoded: Deserialized<Record>, svc: Collaborators, settings: Settings, firstId: nat)
    ensures Plan(decoded, svc, settings, firstId).Uploaded? <==>
      decoded.Parsed? && NoteDocuments(svc, settings, decoded.value, firstId).Some?
    ensures Plan(decoded, svc, settings, firstId).Uploaded? ==>
      Plan(decoded, svc, settings, firstId).batch == NoteDocuments(svc, settings, decoded.value, firstId).value
    ensures Plan(decoded, svc, settings, firstId).Uploaded? && !Splits(svc, settings, decoded.value) ==>
      |Plan(decoded, svc, settings, firstId).batch| == 1
  {
    if decoded.Parsed? && !Splits(svc, settings, decoded.value) {
      FastPathIsOneChunk(svc, settings, decoded.value, firstId);
    }
  }

  /** A split note without content yields no documents and draws no `Guid`. */
  lemma SplitWithoutContentIsEmpty(svc: Collaborators, settings: Settings, r: Record, firstId: nat)
    requires Splits(svc, settings, r) && IsNullOrWhiteSpace(r.noteContent)
    ensures NoteDocuments(svc, settings, r, firstId) == Some([])
    ensures NoteIdsDrawn(svc, settings, r) == 0
  {
  }
}
