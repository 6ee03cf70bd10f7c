/**
 * `Api.Functions.UpsertIndexDocuments`: one note blob becomes one or more chunk documents keyed
 * `"{NoteId}-{order}"`; the note's stored chunks beyond the new last order are deleted, then
 * the new chunks are merged into the index.
 */
module UpsertIndexDocuments {
  import opened Wrappers
  import opened Text
  import opened Values
  import opened Chunking
  import opened SearchIndexes
  import ApiRecord

  type Record = ApiRecord.SourceNoteRecord

  const OrderField: string := "NoteChunkOrder"
  const VectorField: string := "NoteChunkVector"

  /** `$"{x}"` for a nullable number: its decimal text, or nothing for null. */
  function FormatNullable(x: Option<int>): string {
    match x
    case None => ""
    case Some(n) => IntToString(n)
  }

  /** The composite key `$"{NoteId}-{NoteChunkOrder}"`. */
  function RecordKey(noteId: Option<int>, order: Option<int>): string {
    FormatNullable(noteId) + "-" + FormatNullable(order)
  }

  /** `int.Parse(key.Split('-')[^1])`: the order a key ends with; `None` when the parse throws. */
  function KeyOrder(key: string): Option<int32> {
    ParseInt32(LastSegment(key, '-'))
  }

  /** The text of an order `>= 0` holds no `-`. */
  lemma NoSeparatorInOrder(order: nat)
    ensures '-' !in IntToString(order)
  {
    var t := IntToString(order);
    IntToStringDigits(order);
    forall i | 0 <= i < |t| ensures t[i] != '-' {
      assert IsDigit(t[i]);
    }
  }

  /** The order written into a key is the order read back from it. */
  lemma KeyRoundTrip(noteId: int, order: int32)
    requires order >= 0
    ensures KeyOrder(RecordKey(Some(noteId), Some(order))) == Some(order)
  {
    NoSeparatorInOrder(order);
    LastSegmentOfJoin(IntToString(noteId), '-', IntToString(order));
    ParseInt32RoundTrip(order);
  }

  /** Keys of different notes or different orders differ. */
  lemma KeyInjective(a: int, i: nat, b: int, j: nat)
    ensures RecordKey(Some(a), Some(i)) == RecordKey(Some(b), Some(j)) ==> a == b && i == j
  {
    if RecordKey(Some(a), Some(i)) == RecordKey(Some(b), Some(j)) {
      NoSeparatorInOrder(i);
      NoSeparatorInOrder(j);
      JoinInjective(IntToString(a), IntToString(i), IntToString(b), IntToString(j), '-');
      IntToStringInjective(i, j);
      IntToStringInjective(a, b);
    }
  }

  /**
   * The record as `ConvertToSearchDocumentAsync` leaves it: a usable `chunk` and a non-null
   * `order` override the record's own, the key is recomputed from the note id and the order,
   * and nothing else changes.
   */
  function Converted(r: Record, chunk: Option<string>, order: Option<int32>): (c: Record)
    ensures c.noteChunk == if IsNullOrWhiteSpace(chunk) then r.noteChunk else chunk
    ensures c.noteChunkOrder == if order.None? then r.noteChunkOrder else order
    ensures c.indexRecordId == Some(RecordKey(r.noteId, c.noteChunkOrder))
    ensures c == r.(noteChunk := c.noteChunk, noteChunkOrder := c.noteChunkOrder, indexRecordId := c.indexRecordId)
  {
    var withChunk := if IsNullOrWhiteSpace(chunk) then r else r.(noteChunk := chunk);
    var withOrder := if order.None? then withChunk else withChunk.(noteChunkOrder := order);
    withOrder.(indexRecordId := Some(RecordKey(withOrder.noteId, withOrder.noteChunkOrder)))
  }

  /** A vector field holding a generated embedding. */
  predicate IsEmbedding(v: Value) {
    v.Vec? && v.v.Embedding?
  }

  /**
   * The search document of a converted record: its indexed fields, with the vector replaced by
   * the embedding of the chunk exactly when the chunk has text.
   */
  function ChunkDocument(r: Record, chunk: Option<string>, order: Option<int32>): (d: Document)
    ensures d.Keys == ApiRecord.IndexedProperties
  {
    var c := Converted(r, chunk, order);
    var fields := ApiRecord.IndexFields(c);
    if IsNullOrWhiteSpace(c.noteChunk) then fields
    else fields[VectorField := Vec(Embedding(c.noteChunk.value))]
  }

  /**
   * Every field of a chunk document but the vector holds the converted record's property; the
   * vector holds the embedding of the chunk exactly when the chunk has text.
   */
  lemma ChunkDocumentFields(r: Record, chunk: Option<string>, order: Option<int32>)
    ensures var c := Converted(r, chunk, order); var d := ChunkDocument(r, chunk, order);
      forall name | name in d && name != VectorField :: d[name] == ApiRecord.PropertyValue(c, name)
    ensures var c := Converted(r, chunk, order); var d := ChunkDocument(r, chunk, order);
      IsEmbedding(d[VectorField]) <==> !IsNullOrWhiteSpace(c.noteChunk)
    ensures var c := Converted(r, chunk, order); var d := ChunkDocument(r, chunk, order);
      !IsNullOrWhiteSpace(c.noteChunk) ==> d[VectorField] == Vec(Embedding(c.noteChunk.value))
  {
    var c := Converted(r, chunk, order);
    assert ApiRecord.PropertyValue(c, VectorField) == BoxFloats(c.noteChunkVector);
  }

  /** A chunk document is stored under the key recomputed from the note id and the settled order. */
  lemma ChunkDocumentKey(r: Record, chunk: Option<string>, order: Option<int32>)
    ensures KeyOf(ChunkDocument(r, chunk, order)) == Some(RecordKey(r.noteId, Converted(r, chunk, order).noteChunkOrder))
  {
    ChunkDocumentField(r, chunk, order, KeyField);
  }

  /** `ConvertToSearchDocumentAsync`: the overrides, the key, the field map and the embedding guard. */
  method ConvertToSearchDocument(r: Record, chunk: Option<string>, order: Option<int32>) returns (d: Document)
    ensures d == ChunkDocument(r, chunk, order)
  {
    var note := r;
    if !IsNullOrWhiteSpace(chunk) {
      note := note.(noteChunk := chunk);
    }
    if order.Some? {
      note := note.(noteChunkOrder := order);
    }
    note := note.(indexRecordId := Some(RecordKey(note.noteId, note.noteChunkOrder)));
    d := ApiRecord.ToDictionaryForIndexing(note);
    if !IsNullOrWhiteSpace(note.noteChunk) {
      d := d[VectorField := Vec(Embedding(note.noteChunk.value))];
    }
  }

  /** Paragraph `i` becomes the document of a fresh copy of `base` with chunk `ps[i]` and order `i`. */
  function ParagraphDocuments(base: Record, ps: List<string>): (docs: List<Document>)
    ensures |docs| == |ps|
    ensures forall i | 0 <= i < |ps| :: docs[i] == ChunkDocument(ApiRecord.Copy(base, None, None), Some(ps[i]), Some(i as int32))
  {
    seq(|ps|, i requires 0 <= i < |ps| => ChunkDocument(ApiRecord.Copy(base, None, None), Some(ps[i]), Some(i as int32)))
  }

  /**
   * What `RecursivelySplitNoteContent` returns: no documents for a note without text, else one
   * per paragraph of the chunker; `None` is the OverflowException of the overlap conversion.
   */
  function SplitDocuments(svc: Collaborators, settings: Settings, r: Record): Option<List<Document>> {
    if IsNullOrWhiteSpace(r.noteContent) then Some([])
    else match OverlapTokens(settings)
      case None => None
      case Some(overlap) =>
        Some(ParagraphDocuments(r, Paragraphs(svc, settings, r.noteContent.value, overlap, Some(svc.countTokens))))
  }

  /** `RecursivelySplitNoteContent`: the paragraph loop, each paragraph converted from a fresh copy. */
  method RecursivelySplitNoteContent(svc: Collaborators, settings: Settings, r: Record) returns (docs: Option<List<Document>>)
    ensures docs == SplitDocuments(svc, settings, r)
  {
    if IsNullOrWhiteSpace(r.noteContent) {
      return Some([]);
    }
    var overlap := OverlapTokens(settings);
    if overlap.None? {
      return None;
    }
    var paragraphs := Paragraphs(svc, settings, r.noteContent.value, overlap.value, Some(svc.countTokens));
    var results := ConvertParagraphs(r, paragraphs);
    docs := Some(results);
  }

  /** Lines 201-206: each paragraph converted from a fresh copy of the note, its position as order. */
  method ConvertParagraphs(r: Record, paragraphs: List<string>) returns (results: List<Document>)
    ensures results == ParagraphDocuments(r, paragraphs)
  {
    ghost var expected := ParagraphDocuments(r, paragraphs);
    var copy := ApiRecord.Copy(r, None, None);
    results := [];
    for i := 0 to |paragraphs|
      invariant results == expected[..i]
    {
      var doc := ConvertToSearchDocument(copy, Some(paragraphs[i]), Some(i as int32));
      assert doc == expected[i];
      results := results + [doc];
    }
    assert results == expected;
  }

  /** The record after lines 65-67: the blob path, its last `/`-segment as title, the blob URI. */
  function WithBlobMetadata(r: Record, blobPath: string, blobUri: string): Record {
    r.(filePath := Some(blobPath), title := Some(LastSegment(blobPath, '/')), url := Some(blobUri))
  }

  /** The single-chunk record of the fast path: the whole content as chunk 0. */
  function FastPathRecord(r: Record): Record {
    r.(noteChunk := r.noteContent, noteChunkOrder := Some(0), indexRecordId := Some(RecordKey(r.noteId, Some(0))))
  }

  /** The documents of a note with content: one chunk if it fits `MaxChunkSize` tokens, else the split. */
  function NoteDocuments(svc: Collaborators, settings: Settings, r: Record): Option<List<Document>>
    requires r.noteContent.Some?
  {
    if svc.countTokens(r.noteContent.value) > settings.maxChunkSize then SplitDocuments(svc, settings, r)
    else Some([ChunkDocument(FastPathRecord(r), None, None)])
  }

  /** The blob that triggers a run. */
  datatype Blob = Blob(content: string, path: string, uri: string)

  /** How a run ends. */
  datatype Outcome =
    | DeserializeFailed   // JsonConvert threw; nothing catches it
    | NullRecord          // the blob held `null`
    | MissingNoteId       // the record has no NoteId
    | NoContent           // NoteContent is null or white space
    | OverlapOverflow     // Convert.ToInt32 of the overlap threw; nothing catches it
    | KeyParseFailed      // a stored key of the note did not end in an int; nothing catches it
    | Synced(noteId: int64, stale: set<string>, batch: List<Document>)

  /** The part of a run that does not look at the index. */
  datatype Prepared = Stop(outcome: Outcome) | Ready(noteId: int64, batch: List<Document>)

  function Prepare(decode: string -> Deserialized<Record>, svc: Collaborators, settings: Settings, blob: Blob): Prepared {
    match decode(Cleaned(blob.content))
    case Throws => Stop(DeserializeFailed)
    case NullLiteral => Stop(NullRecord)
    case Parsed(parsed) => PrepareRecord(svc, settings, parsed, blob)
  }

  /** The checks and the batch of a deserialised record. */
  function PrepareRecord(svc: Collaborators, settings: Settings, parsed: Record, blob: Blob): Prepared {
    if parsed.noteId.None? then Stop(MissingNoteId)
    else
      var r := WithBlobMetadata(parsed, blob.path, blob.uri);
      if IsNullOrWhiteSpace(r.noteContent) then Stop(NoContent)
      else match NoteDocuments(svc, settings, r)
        case None => Stop(OverlapOverflow)
        case Some(batch) => Ready(parsed.noteId.value, batch)
  }

  /** A document's chunk order, when it is stored as an `int`. */
  function OrderOf(doc: Document): Option<int> {
    if OrderField in doc && doc[OrderField].Int32? then Some(doc[OrderField].i) else None
  }

  /** The largest stored order of a batch, if any document stores one. */
  function MaxOrder(batch: seq<Document>): (r: Option<int>)
    ensures r.None? <==> forall i | 0 <= i < |batch| :: OrderOf(batch[i]).None?
    ensures r.Some? ==> forall i | 0 <= i < |batch| && OrderOf(batch[i]).Some? :: OrderOf(batch[i]).value <= r.value
    ensures r.Some? ==> exists i | 0 <= i < |batch| :: OrderOf(batch[i]) == r
    decreases |batch|
  {
    if batch == [] then None
    else
      var init := MaxOrder(batch[..|batch| - 1]);
      var last := OrderOf(batch[|batch| - 1]);
      assert forall i | 0 <= i < |batch| - 1 :: batch[..|batch| - 1][i] == batch[i];
      if init.None? then last
      else if last.Some? && last.value >= init.value then last
      else init
  }

  /**
   * Lines 104-107 as intended: the last order after sorting is the largest, and `LastOrDefault`
   * gives 0 for an empty batch.
   */
  function LastChunkIndex(batch: seq<Document>): (r: int)
    ensures forall i | 0 <= i < |batch| && OrderOf(batch[i]).Some? :: OrderOf(batch[i]).value <= r
    ensures (exists i | 0 <= i < |batch| :: OrderOf(batch[i]) == Some(r))
      || (r == 0 && forall i | 0 <= i < |batch| :: OrderOf(batch[i]).None?)
  {
    MaxOrder(batch).GetOr(0)
  }

  /** `c[NoteChunkOrder] as string ?? string.Empty`. */
  function OrderAsString(doc: Document): string {
    if OrderField in doc && doc[OrderField].Str? then doc[OrderField].s else ""
  }

  /** `a` sorts no later than `b` by stored order, a missing or non-`int` order sorting first. */
  predicate OrderedBefore(a: Document, b: Document) {
    OrderOf(a).None? || (OrderOf(b).Some? && OrderOf(a).value <= OrderOf(b).value)
  }

  /** The last document of the stable `OrderBy` on the order field. */
  function LastInOrder(batch: seq<Document>): (d: Document)
    requires batch != []
    ensures d in batch
    decreases |batch|
  {
    if |batch| == 1 then batch[0]
    else
      var prev := LastInOrder(batch[..|batch| - 1]);
      if OrderedBefore(prev, batch[|batch| - 1]) then batch[|batch| - 1] else prev
  }

  /**
   * Lines 104-107 as written: the parse runs on the text of the last document's order, which is
   * empty unless the order is stored as a string; `None` is the FormatException.
   */
  function LastChunkIndexAsWritten(batch: seq<Document>): Option<int32> {
    if batch == [] then Some(0) else ParseInt32(OrderAsString(LastInOrder(batch)))
  }

  /** The keys whose trailing order exceeds `last`. */
  function StaleKeys(keys: set<string>, last: int): (r: set<string>)
    ensures r <= keys
  {
    set k | k in keys && KeyOrder(k).Some? && KeyOrder(k).value > last
  }

  /** Every key ends in an order `int.Parse` accepts. */
  predicate AllKeysParse(keys: set<string>) {
    forall k | k in keys :: KeyOrder(k).Some?
  }

  /** The stale keys of `keys` in order, or `None` once a key does not parse. */
  function StaleInOrder(keys: seq<string>, last: int): Option<seq<string>>
    decreases |keys|
  {
    if keys == [] then Some([])
    else match StaleInOrder(keys[..|keys| - 1], last)
      case None => None
      case Some(found) =>
        var k := keys[|keys| - 1];
        match KeyOrder(k)
        case None => None
        case Some(order) => Some(if order > last then found + [k] else found)
  }

  /** Adding a key that parses adds it to the stale keys exactly when its order exceeds `last`. */
  lemma StaleKeysAddOne(keys: set<string>, k: string, last: int)
    requires KeyOrder(k).Some?
    ensures StaleKeys(keys + {k}, last) == StaleKeys(keys, last) + (if KeyOrder(k).value > last then {k} else {})
  {
  }

  /** `StaleInOrder` fails exactly when some key does not parse, and otherwise finds the stale set. */
  lemma {:induction false} StaleInOrderIsStaleKeys(keys: seq<string>, last: int)
    ensures StaleInOrder(keys, last).None? <==> !AllKeysParse(set k | k in keys)
    ensures StaleInOrder(keys, last).Some? ==>
      (set k | k in StaleInOrder(keys, last).value) == StaleKeys((set k | k in keys), last)
  {
    if keys != [] {
      var init := keys[..|keys| - 1];
      var k := keys[|keys| - 1];
      StaleInOrderIsStaleKeys(init, last);
      assert keys == init + [k];
      assert (set x | x in keys) == (set x | x in init) + {k};
      var order := KeyOrder(k);
      if StaleInOrder(init, last).Some? && order.Some? {
        var found := StaleInOrder(init, last).value;
        var added := if order.value > last then [k] else [];
        assert found + [] == found;
        assert StaleInOrder(keys, last) == Some(found + added);
        assert (set x | x in found + added) == (set x | x in found) + (set x | x in added);
        assert (set x | x in added) == if order.value > last then {k} else {};
        StaleKeysAddOne((set x | x in init), k, last);
      }
    }
  }

  /**
   * The `await foreach` of lines 112-118: each existing key parsed back to its order and kept
   * when the order exceeds `last`; the first key that does not parse ends the loop with `None`.
   */
  method CollectStaleKeys(keys: seq<string>, last: int) returns (stale: Option<seq<string>>)
    ensures stale.None? <==> !AllKeysParse(set k | k in keys)
    ensures stale.Some? ==> (set k | k in stale.value) == StaleKeys((set k | k in keys), last)
  {
    var found: seq<string> := [];
    for i := 0 to |keys|
      invariant StaleInOrder(keys[..i], last) == Some(found)
    {
      assert keys[..i + 1][..i] == keys[..i];
      var order := KeyOrder(keys[i]);
      if order.None? {
        assert StaleInOrder(keys[..i + 1], last).None?;
        StaleInOrderIsStaleKeys(keys[..i + 1], last);
        assert keys[i] in set k | k in keys;
        return None;
      }
      if order.value > last {
        found := found + [keys[i]];
      }
    }
    assert keys[..|keys|] == keys;
    StaleInOrderIsStaleKeys(keys, last);
    stale := Some(found);
  }

  /** What the index part of a run decides for a prepared batch, given the index contents before it. */
  function SyncPlan(docs: map<string, Document>, noteId: int64, batch: List<Document>): Outcome {
    var keys := NoteKeys(docs, noteId);
    if !AllKeysParse(keys) then KeyParseFailed
    else Synced(noteId, StaleKeys(keys, LastChunkIndex(batch)), batch)
  }

  /** The text after the last `-` of a `Guid` key is no `int`, so `int.Parse` throws on it. */
  lemma GuidKeyHasNoOrder(g: Guid)
    ensures KeyOrder(GuidText(g)).None?
  {
    LastSegmentOfJoin(NatToString(g.serial), '-', "a");
    assert GuidText(g) == NatToString(g.serial) + ['-'] + "a";
  }

  /**
   * A document of the note stored under a `Guid` key, as the batch loaders write them into the
   * same index, makes the key loop throw: the sync stops before deleting or writing anything.
   */
  lemma GuidKeyedNoteStopsSync(docs: map<string, Document>, noteId: int64, batch: List<Document>, g: Guid)
    requires GuidText(g) in NoteKeys(docs, noteId)
    ensures SyncPlan(docs, noteId, batch) == KeyParseFailed
    ensures After(docs, SyncPlan(docs, noteId, batch)) == docs
  {
    GuidKeyHasNoOrder(g);
  }

  /** What a run decides, given the index contents before it. */
  function Plan(docs: map<string, Document>, decode: string -> Deserialized<Record>, svc: Collaborators,
                settings: Settings, blob: Blob): Outcome
  {
    match Prepare(decode, svc, settings, blob)
    case Stop(outcome) => outcome
    case Ready(noteId, batch) => SyncPlan(docs, noteId, batch)
  }

  /** The index after a run: only a completed sync changes it, deleting the stale keys first. */
  function After(docs: map<string, Document>, outcome: Outcome): map<string, Document> {
    match outcome
    case Synced(_, stale, batch) => Indexed(docs - stale, MergeOrUpload, batch)
    case _ => docs
  }

  /** The index after deleting the chunks stale for a batch of `|batch|` chunks and merging the batch in. */
  function SyncedIndex(docs: map<string, Document>, noteId: int64, batch: List<Document>): map<string, Document> {
    Indexed(docs - StaleKeys(NoteKeys(docs, noteId), |batch| - 1), MergeOrUpload, batch)
  }

  /** `DeleteOldChunksAsync`: the stale keys of the note, deleted when there are any. */
  method DeleteOldChunks(index: SearchIndex, noteId: int64, last: int) returns (stale: Option<set<string>>)
    modifies index
    ensures stale == if AllKeysParse(NoteKeys(old(index.docs), noteId))
      then Some(StaleKeys(NoteKeys(old(index.docs), noteId), last)) else None
    ensures index.docs == if stale.Some? then old(index.docs) - stale.value else old(index.docs)
  {
    var keys := index.KeysOfNote(noteId);
    var found := CollectStaleKeys(keys, last);
    if found.None? {
      return None;
    }
    if |found.value| > 0 {
      index.DeleteDocuments(found.value);
    } else {
      assert index.docs == index.docs - {};
    }
    stale := Some(set k | k in found.value);
  }

  /** Lines 45-93 of `RunAsync`: the blob read, checked and turned into the batch of chunk documents. */
  method ReadNote(decode: string -> Deserialized<Record>, svc: Collaborators, settings: Settings, blob: Blob)
    returns (prepared: Prepared)
    ensures prepared == Prepare(decode, svc, settings, blob)
  {
    var parsed := decode(Cleaned(blob.content));
    if parsed.Throws? {
      return Stop(DeserializeFailed);
    }
    if parsed.NullLiteral? {
      return Stop(NullRecord);
    }
    var record := parsed.value;
    if record.noteId.None? {
      return Stop(MissingNoteId);
    }
    record := record.(filePath := Some(blob.path));
    record := record.(title := Some(LastSegment(blob.path, '/')));
    record := record.(url := Some(blob.uri));
    assert record == WithBlobMetadata(parsed.value, blob.path, blob.uri);
    if IsNullOrWhiteSpace(record.noteContent) {
      return Stop(NoContent);
    }
    var documents := BuildDocuments(svc, settings, record);
    if documents.None? {
      return Stop(OverlapOverflow);
    }
    prepared := Ready(record.noteId.value, documents.value);
  }

  /** Lines 78-93 of `RunAsync`: the single-chunk fast path or the split. */
  method BuildDocuments(svc: Collaborators, settings: Settings, r: Record) returns (documents: Option<List<Document>>)
    requires r.noteContent.Some?
    ensures documents == NoteDocuments(svc, settings, r)
  {
    if svc.countTokens(r.noteContent.value) > settings.maxChunkSize {
      documents := RecursivelySplitNoteContent(svc, settings, r);
    } else {
      var record := r.(noteChunk := r.noteContent, noteChunkOrder := Some(0));
      record := record.(indexRecordId := Some(RecordKey(record.noteId, record.noteChunkOrder)));
      assert record == FastPathRecord(r);
      var doc := ConvertToSearchDocument(record, None, None);
      documents := Some([doc]);
    }
  }

  /** `RunAsync`: read the note, delete its stale chunks, then merge the new ones in (`LoadIndexAsync`). */
  method Run(index: SearchIndex, decode: string -> Deserialized<Record>, svc: Collaborators,
             settings: Settings, blob: Blob) returns (outcome: Outcome)
    modifies index
    ensures outcome == Plan(old(index.docs), decode, svc, settings, blob)
    ensures index.docs == After(old(index.docs), outcome)
  {
    var prepared := ReadNote(decode, svc, settings, blob);
    if prepared.Stop? {
      return prepared.outcome;
    }
    outcome := Sync(index, prepared.noteId, prepared.batch);
  }

  /** Lines 96-99 of `RunAsync`: the stale chunks deleted, then the batch merged in. */
  method Sync(index: SearchIndex, noteId: int64, batch: List<Document>) returns (outcome: Outcome)
    modifies index
    ensures outcome == SyncPlan(old(index.docs), noteId, batch)
    ensures index.docs == After(old(index.docs), outcome)
  {
    var stale := DeleteOldChunks(index, noteId, LastChunkIndex(batch));
    if stale.None? {
      return KeyParseFailed;
    }
    index.IndexDocuments(MergeOrUpload, batch);
    outcome := Synced(noteId, stale.value, batch);
  }

  /** Document `i` of a note's batch: keyed `"{noteId}-{i}"`, storing order `i` and the note id. */
  predicate IsChunk(doc: Document, noteId: int, i: int) {
    && KeyOf(doc) == Some(RecordKey(Some(noteId), Some(i)))
    && OrderOf(doc) == Some(i)
    && BelongsTo(doc, noteId)
  }

  /** The documents of a batch are the note's chunks 0, 1, 2, ... in batch order. */
  predicate Numbered(batch: seq<Document>, noteId: int) {
    forall i | 0 <= i < |batch| :: IsChunk(batch[i], noteId, i)
  }

  /** One indexed field of a chunk document other than the vector. */
  lemma ChunkDocumentField(r: Record, chunk: Option<string>, order: Option<int32>, name: string)
    requires name in ApiRecord.PropertyNames && name != "NoteContent" && name != VectorField
    ensures var d := ChunkDocument(r, chunk, order);
      name in d && d[name] == ApiRecord.PropertyValue(Converted(r, chunk, order), name)
  {
    ChunkDocumentFields(r, chunk, order);
  }

  /** The boxed values of the properties the chunk lemmas read. */
  lemma ChunkPropertyValues(c: Record)
    ensures ApiRecord.PropertyValue(c, "NoteId") == BoxInt64(c.noteId)
    ensures ApiRecord.PropertyValue(c, "NoteChunk") == BoxString(c.noteChunk)
    ensures ApiRecord.PropertyValue(c, OrderField) == BoxInt32(c.noteChunkOrder)
    ensures ApiRecord.PropertyValue(c, "FilePath") == BoxString(c.filePath)
    ensures ApiRecord.PropertyValue(c, "Title") == BoxString(c.title)
    ensures ApiRecord.PropertyValue(c, "Url") == BoxString(c.url)
  {
  }

  /** The conversion keeps the note id and the blob metadata. */
  lemma ConvertedKeeps(r: Record, chunk: Option<string>, order: Option<int32>)
    ensures var c := Converted(r, chunk, order);
      c.noteId == r.noteId && c.filePath == r.filePath && c.title == r.title && c.url == r.url
  {
  }

  /** A chunk document stores the order the conversion settles on. */
  lemma ChunkDocumentOrder(r: Record, chunk: Option<string>, order: Option<int32>, i: int32)
    requires Converted(r, chunk, order).noteChunkOrder == Some(i)
    ensures OrderOf(ChunkDocument(r, chunk, order)) == Some(i as int)
  {
    ChunkDocumentField(r, chunk, order, OrderField);
    ChunkPropertyValues(Converted(r, chunk, order));
  }

  /** A chunk document stores the record's note id. */
  lemma ChunkDocumentNote(r: Record, chunk: Option<string>, order: Option<int32>)
    requires r.noteId.Some?
    ensures BelongsTo(ChunkDocument(r, chunk, order), r.noteId.value)
  {
    ChunkDocumentField(r, chunk, order, "NoteId");
    ChunkPropertyValues(Converted(r, chunk, order));
    ConvertedKeeps(r, chunk, order);
  }

  /** A chunk document carries the record's note id and the order the conversion settles on. */
  lemma ChunkDocumentIsChunk(r: Record, chunk: Option<string>, order: Option<int32>, i: int32)
    requires r.noteId.Some?
    requires Converted(r, chunk, order).noteChunkOrder == Some(i)
    ensures IsChunk(ChunkDocument(r, chunk, order), r.noteId.value, i)
  {
    ChunkDocumentOrder(r, chunk, order, i);
    ChunkDocumentNote(r, chunk, order);
    ChunkDocumentKey(r, chunk, order);
  }

  /** A copy made for a paragraph keeps the note id. */
  lemma CopyKeepsNoteId(r: Record)
    ensures ApiRecord.Copy(r, None, None).noteId == r.noteId
  {
    var c := ApiRecord.Copy(r, None, None);
    assert ApiRecord.PropertyValue(c, "NoteId") == ApiRecord.PropertyValue(r, "NoteId");
  }

  /** The batch of a note with an id is numbered: paragraph `i` becomes chunk `i`, the fast path chunk 0. */
  lemma NoteDocumentsAreNumbered(svc: Collaborators, settings: Settings, r: Record)
    requires r.noteContent.Some? && r.noteId.Some?
    ensures NoteDocuments(svc, settings, r).Some? ==> Numbered(NoteDocuments(svc, settings, r).value, r.noteId.value)
  {
    if svc.countTokens(r.noteContent.value) > settings.maxChunkSize {
      if !IsNullOrWhiteSpace(r.noteContent) && OverlapTokens(settings).Some? {
        var ps := Paragraphs(svc, settings, r.noteContent.value, OverlapTokens(settings).value, Some(svc.countTokens));
        var batch := ParagraphDocuments(r, ps);
        CopyKeepsNoteId(r);
        forall i | 0 <= i < |batch| ensures IsChunk(batch[i], r.noteId.value, i) {
          ChunkDocumentIsChunk(ApiRecord.Copy(r, None, None), Some(ps[i]), Some(i as int32), i as int32);
        }
      }
    } else {
      ChunkDocumentIsChunk(FastPathRecord(r), None, None, 0);
    }
  }

  /** Every batch a run gets ready is numbered for its note. */
  lemma PreparedBatchIsNumbered(decode: string -> Deserialized<Record>, svc: Collaborators, settings: Settings, blob: Blob)
    ensures var p := Prepare(decode, svc, settings, blob);
      p.Ready? ==> Numbered(p.batch, p.noteId)
  {
    var parsed := decode(Cleaned(blob.content));
    if parsed.Parsed? {
      RecordBatchIsNumbered(svc, settings, parsed.value, blob);
    }
  }

  lemma RecordBatchIsNumbered(svc: Collaborators, settings: Settings, parsed: Record, blob: Blob)
    ensures var p := PrepareRecord(svc, settings, parsed, blob);
      p.Ready? ==> Numbered(p.batch, p.noteId)
  {
    if parsed.noteId.Some? {
      var r := WithBlobMetadata(parsed, blob.path, blob.uri);
      if !IsNullOrWhiteSpace(r.noteContent) {
        NoteDocumentsAreNumbered(svc, settings, r);
      }
    }
  }

  /** The chunks of a numbered batch have pairwise different keys. */
  lemma NumberedKeysDistinct(batch: seq<Document>, noteId: int)
    requires Numbered(batch, noteId)
    ensures DistinctKeys(batch)
  {
    forall i, j | 0 <= i < j < |batch| && KeyOf(batch[i]).Some? ensures KeyOf(batch[i]) != KeyOf(batch[j]) {
      KeyInjective(noteId, i, noteId, j);
    }
  }

  /** The keys a numbered batch writes are `"{noteId}-0"` up to `"{noteId}-{n - 1}"`. */
  lemma NumberedBatchKeys(batch: seq<Document>, noteId: int)
    requires Numbered(batch, noteId)
    ensures BatchKeys(batch) == set i | 0 <= i < |batch| :: RecordKey(Some(noteId), Some(i))
  {
    assert forall i | 0 <= i < |batch| :: KeyOf(batch[i]) == Some(RecordKey(Some(noteId), Some(i)));
  }

  /** The last chunk index of a numbered batch is its last position, and 0 for an empty batch. */
  lemma NumberedLastChunkIndex(batch: seq<Document>, noteId: int)
    requires Numbered(batch, noteId)
    ensures LastChunkIndex(batch) == if batch == [] then 0 else |batch| - 1
  {
    if batch != [] {
      assert OrderOf(batch[|batch| - 1]) == Some(|batch| - 1);
      var m := MaxOrder(batch);
      var i :| 0 <= i < |batch| && OrderOf(batch[i]) == m;
      assert OrderOf(batch[i]) == Some(i);
    }
  }

  /**
   * Every stored document sits under the key `"{NoteId}-{order}"` of its own note, with an order
   * `>= 0` that an `int` holds: what this function's own writes keep true of the index.
   */
  ghost predicate WellKeyed(docs: map<string, Document>) {
    forall k | k in docs :: KeyedBy(k, docs[k])
  }

  /** `k` is `"{n}-{j}"` for the note `n` the document belongs to and some order `j >= 0` an `int` holds. */
  ghost predicate KeyedBy(k: string, doc: Document) {
    exists n: int, j: int32 | j >= 0 :: k == RecordKey(Some(n), Some(j)) && BelongsTo(doc, n)
  }

  /** In a well-keyed index, a stored chunk of the note is keyed by its order, and the key parses back to it. */
  lemma NoteKeyOrder(docs: map<string, Document>, noteId: int, k: string) returns (j: int32)
    requires WellKeyed(docs) && k in docs && BelongsTo(docs[k], noteId)
    ensures j >= 0 && k == RecordKey(Some(noteId), Some(j)) && KeyOrder(k) == Some(j)
  {
    var n: int, i: int32 :| i >= 0 && k == RecordKey(Some(n), Some(i)) && BelongsTo(docs[k], n);
    j := i;
    KeyRoundTrip(noteId, j);
  }

  /** In a well-keyed index, a document of another note is under no key of this note. */
  lemma OtherNoteKey(docs: map<string, Document>, noteId: int, k: string, i: nat)
    requires WellKeyed(docs) && k in docs && !BelongsTo(docs[k], noteId)
    ensures k != RecordKey(Some(noteId), Some(i))
  {
    var n: int, j: int32 :| j >= 0 && k == RecordKey(Some(n), Some(j)) && BelongsTo(docs[k], n);
    KeyInjective(n, j, noteId, i);
  }

  /** The note's chunk `i` of a batch of `n` chunks is not stale. */
  lemma ChunkNotStale(docs: map<string, Document>, noteId: int, n: nat, i: nat)
    requires WellKeyed(docs) && i < n
    ensures RecordKey(Some(noteId), Some(i)) !in StaleKeys(NoteKeys(docs, noteId), n - 1)
  {
    var k := RecordKey(Some(noteId), Some(i));
    if k in NoteKeys(docs, noteId) {
      var j := NoteKeyOrder(docs, noteId, k);
      KeyInjective(noteId, i, noteId, j);
    }
  }

  /** After a sync, the note's chunk `i` holds the batch's document `i`, merged over the stored one. */
  lemma SyncStoresChunk(docs: map<string, Document>, noteId: int64, batch: List<Document>, i: nat)
    requires WellKeyed(docs) && Numbered(batch, noteId) && i < |batch|
    ensures var k := RecordKey(Some(noteId), Some(i));
      var after := Indexed(docs - StaleKeys(NoteKeys(docs, noteId), |batch| - 1), MergeOrUpload, batch);
      && k in after
      && after[k] == (if k in docs then docs[k] + batch[i] else batch[i])
      && BelongsTo(after[k], noteId)
  {
    var stale := StaleKeys(NoteKeys(docs, noteId), |batch| - 1);
    NumberedKeysDistinct(batch, noteId);
    ChunkNotStale(docs, noteId, |batch|, i);
    IndexedStores(docs - stale, MergeOrUpload, batch, i);
  }

  /** The documents a sync leaves to the note are exactly the batch's chunks. */
  lemma SyncNoteKeys(docs: map<string, Document>, noteId: int64, batch: List<Document>)
    requires WellKeyed(docs) && Numbered(batch, noteId)
    ensures NoteKeys(SyncedIndex(docs, noteId, batch), noteId) == set i | 0 <= i < |batch| :: RecordKey(Some(noteId), Some(i))
  {
    var stale := StaleKeys(NoteKeys(docs, noteId), |batch| - 1);
    var after := SyncedIndex(docs, noteId, batch);
    var chunks := set i | 0 <= i < |batch| :: RecordKey(Some(noteId), Some(i));
    IndexedFrame(docs - stale, MergeOrUpload, batch);
    NumberedBatchKeys(batch, noteId);
    forall k | k in chunks ensures k in NoteKeys(after, noteId) {
      var i :| 0 <= i < |batch| && k == RecordKey(Some(noteId), Some(i));
      SyncStoresChunk(docs, noteId, batch, i);
    }
    forall k | k in NoteKeys(after, noteId) ensures k in chunks {
      if k in docs && k !in stale && BelongsTo(docs[k], noteId) {
        var j := NoteKeyOrder(docs, noteId, k);
        assert RecordKey(Some(noteId), Some(j as int)) in chunks;
      }
    }
  }

  /** A sync leaves the documents of every other note as they were. */
  lemma SyncKeepsOtherNotes(docs: map<string, Document>, noteId: int64, batch: List<Document>)
    requires WellKeyed(docs) && Numbered(batch, noteId)
    ensures var after := SyncedIndex(docs, noteId, batch);
      forall k | k in docs && !BelongsTo(docs[k], noteId) :: k in after && after[k] == docs[k]
  {
    var stale := StaleKeys(NoteKeys(docs, noteId), |batch| - 1);
    IndexedFrame(docs - stale, MergeOrUpload, batch);
    var after := SyncedIndex(docs, noteId, batch);
    forall k | k in docs && !BelongsTo(docs[k], noteId) ensures k in after && after[k] == docs[k] {
      forall i | 0 <= i < |batch| ensures KeyOf(batch[i]) != Some(k) {
        OtherNoteKey(docs, noteId, k, i);
      }
      assert k !in BatchKeys(batch);
      assert k in docs - stale;
    }
  }

  /** A sync keeps the index well keyed. */
  lemma SyncKeepsWellKeyed(docs: map<string, Document>, noteId: int64, batch: List<Document>)
    requires WellKeyed(docs) && Numbered(batch, noteId)
    ensures WellKeyed(SyncedIndex(docs, noteId, batch))
  {
    var stale := StaleKeys(NoteKeys(docs, noteId), |batch| - 1);
    var after := SyncedIndex(docs, noteId, batch);
    IndexedFrame(docs - stale, MergeOrUpload, batch);
    NumberedBatchKeys(batch, noteId);
    forall k | k in after ensures KeyedBy(k, after[k]) {
      if k in BatchKeys(batch) {
        var i :| 0 <= i < |batch| && k == RecordKey(Some(noteId), Some(i));
        SyncStoresChunk(docs, noteId, batch, i);
        assert k == RecordKey(Some(noteId as int), Some((i as int32) as int));
      }
    }
  }

  /**
   * A sync of a non-empty batch into a well-keyed index: afterwards the note's documents are
   * exactly the batch's chunks, every other note's documents are as they were, and the index
   * is still well keyed.
   */
  lemma SyncReplacesTheNotesChunks(docs: map<string, Document>, noteId: int64, batch: List<Document>)
    requires WellKeyed(docs) && Numbered(batch, noteId) && batch != []
    ensures SyncPlan(docs, noteId, batch).Synced?
    ensures var after := After(docs, SyncPlan(docs, noteId, batch));
      NoteKeys(after, noteId) == set i | 0 <= i < |batch| :: RecordKey(Some(noteId), Some(i))
    ensures var after := After(docs, SyncPlan(docs, noteId, batch));
      forall k | k in docs && !BelongsTo(docs[k], noteId) :: k in after && after[k] == docs[k]
    ensures WellKeyed(After(docs, SyncPlan(docs, noteId, batch)))
  {
    var keys := NoteKeys(docs, noteId);
    NumberedLastChunkIndex(batch, noteId);
    assert AllKeysParse(keys) by {
      forall k | k in keys ensures KeyOrder(k).Some? {
        var _ := NoteKeyOrder(docs, noteId, k);
      }
    }
    assert After(docs, SyncPlan(docs, noteId, batch)) == SyncedIndex(docs, noteId, batch);
    SyncNoteKeys(docs, noteId, batch);
    SyncKeepsOtherNotes(docs, noteId, batch);
    SyncKeepsWellKeyed(docs, noteId, batch);
  }

  /**
   * A sync of an empty batch (a split that found no paragraph) deletes every chunk of the note
   * but `"{noteId}-0"`, since the last chunk index defaults to 0, and writes nothing.
   */
  lemma SyncOfEmptyBatchKeepsChunkZero(docs: map<string, Document>, noteId: int64)
    requires WellKeyed(docs)
    ensures SyncPlan(docs, noteId, []).Synced?
    ensures NoteKeys(After(docs, SyncPlan(docs, noteId, [])), noteId)
      == NoteKeys(docs, noteId) * {RecordKey(Some(noteId), Some(0))}
  {
    var keys := NoteKeys(docs, noteId);
    assert AllKeysParse(keys) by {
      forall k | k in keys ensures KeyOrder(k).Some? {
        var _ := NoteKeyOrder(docs, noteId, k);
      }
    }
    var stale := StaleKeys(keys, 0);
    assert After(docs, SyncPlan(docs, noteId, [])) == docs - stale;
    forall k | k in keys ensures k in stale <==> k != RecordKey(Some(noteId), Some(0)) {
      var j := NoteKeyOrder(docs, noteId, k);
      KeyInjective(noteId, j, noteId, 0);
    }
  }

  /**
   * Line 106 as written fails on every non-empty numbered batch: the order is stored as an `int`,
   * `as string` gives null, and `int.Parse("")` throws; the intended index is the last position.
   */
  lemma LastChunkIndexAsWrittenThrows(batch: seq<Document>, noteId: int)
    requires Numbered(batch, noteId) && batch != []
    ensures LastChunkIndexAsWritten(batch).None?
    ensures LastChunkIndex(batch) == |batch| - 1
  {
    var d := LastInOrder(batch);
    var i :| 0 <= i < |batch| && batch[i] == d;
    assert OrderOf(batch[i]) == Some(i);
    assert OrderAsString(d) == "";
    NumberedLastChunkIndex(batch, noteId);
  }

  /** As written, every run that gets a non-empty batch ready throws at line 106, before deleting or writing. */
  lemma RunAsWrittenThrowsOnEveryBatch(decode: string -> Deserialized<Record>, svc: Collaborators, settings: Settings, blob: Blob)
    ensures var p := Prepare(decode, svc, settings, blob);
      p.Ready? && p.batch != [] ==> LastChunkIndexAsWritten(p.batch).None? && LastChunkIndex(p.batch) == |p.batch| - 1
  {
    PreparedBatchIsNumbered(decode, svc, settings, blob);
    var p := Prepare(decode, svc, settings, blob);
    if p.Ready? && p.batch != [] {
      LastChunkIndexAsWrittenThrows(p.batch, p.noteId);
    }
  }

  /** The fast path always yields one chunk, so the as-written line 106 throws on it. */
  lemma FastPathBatchIsOneChunk(svc: Collaborators, settings: Settings, r: Record)
    requires r.noteContent.Some? && r.noteId.Some?
    requires svc.countTokens(r.noteContent.value) <= settings.maxChunkSize
    ensures NoteDocuments(svc, settings, r).Some?
    ensures |NoteDocuments(svc, settings, r).value| == 1
    ensures IsChunk(NoteDocuments(svc, settings, r).value[0], r.noteId.value, 0)
  {
    ChunkDocumentIsChunk(FastPathRecord(r), None, None, 0);
  }

  /** A document carries the blob it came from: its path, the path's last segment as title, and its URI. */
  predicate CarriesBlob(doc: Document, blob: Blob) {
    && "FilePath" in doc && doc["FilePath"] == Str(blob.path)
    && "Title" in doc && doc["Title"] == Str(LastSegment(blob.path, '/'))
    && "Url" in doc && doc["Url"] == Str(blob.uri)
  }

  /** A chunk document stores the record's file path, title and URL. */
  lemma ChunkDocumentSource(r: Record, chunk: Option<string>, order: Option<int32>)
    ensures var d := ChunkDocument(r, chunk, order);
      && "FilePath" in d && d["FilePath"] == BoxString(r.filePath)
      && "Title" in d && d["Title"] == BoxString(r.title)
      && "Url" in d && d["Url"] == BoxString(r.url)
  {
    ChunkDocumentField(r, chunk, order, "FilePath");
    ChunkDocumentField(r, chunk, order, "Title");
    ChunkDocumentField(r, chunk, order, "Url");
    ChunkPropertyValues(Converted(r, chunk, order));
    ConvertedKeeps(r, chunk, order);
  }

  /** A paragraph's copy keeps the record's file path, title and URL. */
  lemma CopyKeepsSource(r: Record)
    ensures var c := ApiRecord.Copy(r, None, None);
      c.filePath == r.filePath && c.title == r.title && c.url == r.url
  {
    var c := ApiRecord.Copy(r, None, None);
    assert ApiRecord.PropertyValue(c, "FilePath") == ApiRecord.PropertyValue(r, "FilePath");
    assert ApiRecord.PropertyValue(c, "Title") == ApiRecord.PropertyValue(r, "Title");
    assert ApiRecord.PropertyValue(c, "Url") == ApiRecord.PropertyValue(r, "Url");
  }

  /** A record holding the blob's metadata gives a chunk document that carries the blob. */
  lemma ChunkDocumentCarriesBlob(r: Record, chunk: Option<string>, order: Option<int32>, blob: Blob)
    requires r.filePath == Some(blob.path) && r.title == Some(LastSegment(blob.path, '/')) && r.url == Some(blob.uri)
    ensures CarriesBlob(ChunkDocument(r, chunk, order), blob)
  {
    ChunkDocumentSource(r, chunk, order);
  }

  /** Every paragraph document of a record holding the blob's metadata carries the blob. */
  lemma ParagraphsCarryBlob(r: Record, ps: List<string>, blob: Blob)
    requires r.filePath == Some(blob.path) && r.title == Some(LastSegment(blob.path, '/')) && r.url == Some(blob.uri)
    ensures var batch := ParagraphDocuments(r, ps);
      forall i | 0 <= i < |batch| :: CarriesBlob(batch[i], blob)
  {
    var batch := ParagraphDocuments(r, ps);
    CopyKeepsSource(r);
    forall i | 0 <= i < |batch| ensures CarriesBlob(batch[i], blob) {
      ChunkDocumentCarriesBlob(ApiRecord.Copy(r, None, None), Some(ps[i]), Some(i as int32), blob);
    }
  }

  /** Every document of a batch a record gets ready carries the blob's path, title and URI. */
  lemma RecordBatchCarriesBlob(svc: Collaborators, settings: Settings, parsed: Record, blob: Blob)
    ensures var p := PrepareRecord(svc, settings, parsed, blob);
      p.Ready? ==> forall i | 0 <= i < |p.batch| :: CarriesBlob(p.batch[i], blob)
  {
    if parsed.noteId.Some? {
      var r := WithBlobMetadata(parsed, blob.path, blob.uri);
      if !IsNullOrWhiteSpace(r.noteContent) {
        NoteDocumentsCarryBlob(svc, settings, r, blob);
      }
    }
  }

  /** The documents of a note holding the blob's metadata carry the blob, split or not. */
  lemma NoteDocumentsCarryBlob(svc: Collaborators, settings: Settings, r: Record, blob: Blob)
    requires r.noteContent.Some?
    requires r.filePath == Some(blob.path) && r.title == Some(LastSegment(blob.path, '/')) && r.url == Some(blob.uri)
    ensures var docs := NoteDocuments(svc, settings, r);
      docs.Some? ==> forall i | 0 <= i < |docs.value| :: CarriesBlob(docs.value[i], blob)
  {
    if svc.countTokens(r.noteContent.value) > settings.maxChunkSize {
      if !IsNullOrWhiteSpace(r.noteContent) && OverlapTokens(settings).Some? {
        var ps := Paragraphs(svc, settings, r.noteContent.value, OverlapTokens(settings).value, Some(svc.countTokens));
        assert NoteDocuments(svc, settings, r) == Some(ParagraphDocuments(r, ps));
        ParagraphsCarryBlob(r, ps, blob);
      }
    } else {
      assert NoteDocuments(svc, settings, r) == Some([ChunkDocument(FastPathRecord(r), None, None)]);
      ChunkDocumentCarriesBlob(FastPathRecord(r), None, None, blob);
    }
  }

  /** Every document of a batch a run gets ready carries the blob's path, title and URI. */
  lemma PreparedBatchCarriesBlob(decode: string -> Deserialized<Record>, svc: Collaborators, settings: Settings, blob: Blob)
    ensures var p := Prepare(decode, svc, settings, blob);
      p.Ready? ==> forall i | 0 <= i < |p.batch| :: CarriesBlob(p.batch[i], blob)
  {
    var parsed := decode(Cleaned(blob.content));
    if parsed.Parsed? {
      RecordBatchCarriesBlob(svc, settings, parsed.value, blob);
    }
  }

  /** A paragraph with text becomes the chunk text of its document, and its embedding the vector. */
  lemma ParagraphIsEmbedded(base: Record, ps: List<string>, i: nat)
    requires i < |ps| && !IsNullOrWhiteSpace(Some(ps[i]))
    ensures var d := ParagraphDocuments(base, ps)[i];
      && "NoteChunk" in d && d["NoteChunk"] == Str(ps[i])
      && VectorField in d && d[VectorField] == Vec(Embedding(ps[i]))
  {
    var copy := ApiRecord.Copy(base, None, None);
    ChunkDocumentField(copy, Some(ps[i]), Some(i as int32), "NoteChunk");
    ChunkDocumentFields(copy, Some(ps[i]), Some(i as int32));
    ChunkPropertyValues(Converted(copy, Some(ps[i]), Some(i as int32)));
  }

  /** The single chunk of the fast path is the whole note, embedded whole. */
  lemma FastPathIsEmbedded(r: Record)
    requires !IsNullOrWhiteSpace(r.noteContent)
    ensures var d := ChunkDocument(FastPathRecord(r), None, None);
      && "NoteChunk" in d && d["NoteChunk"] == Str(r.noteContent.value)
      && VectorField in d && d[VectorField] == Vec(Embedding(r.noteContent.value))
  {
    ChunkDocumentField(FastPathRecord(r), None, None, "NoteChunk");
    ChunkDocumentFields(FastPathRecord(r), None, None);
    ChunkPropertyValues(Converted(FastPathRecord(r), None, None));
  }
}
