# Damu note indexing and retrieval, modelled in Dafny

Damu loads clinical notes into an Azure AI Search index, and a chat server later retrieves them
as grounding for a language model. This project models the deterministic core of that system:

- **The note records.** These are the three `SourceNoteRecord` classes: `Api`, `Api.Models` and
  `IndexOrchestration.Models`. The model covers their defaults, their copy constructors and the
  field maps they turn into search documents.
- **The loaders.** These turn notes into chunk documents and write them to the index:
  - `Api.Functions.UpsertIndexDocuments` handles one note per blob. It writes composite keys
    `"{NoteId}-{order}"` and deletes the note's stale chunks.
  - `Api.Functions.IndexUpserter` and `Api.IndexUpserter` are batch loaders over a stream of
    JSON values.
  - `IndexOrchestration.Functions.IndexUpserter` loads one note per blob.

  Each loader either indexes a note as a single chunk of order 0 or splits it into paragraphs,
  where paragraph `i` becomes chunk `i`.
- **The retrieval projections.**
  - `AzureSearchService.QueryDocumentsAsync` shapes search hits into citations.
  - The `MinimalSearchResult` constructor builds a slim view of a hit.
- **The NDJSON note lookup.** `FetchNote` reads a newline-delimited JSON blob line by line and
  returns the first note with the requested id.

The external services appear as parameters. These are JSON deserialisation, the Tiktoken token
counter, Document Intelligence layout analysis and Semantic Kernel's `TextChunker`. Embeddings are
symbolic: `Embedding(text)` stands for the vector of `text`. The search index is a class
holding a map from key to document, with `Upload`, `MergeOrUpload` and delete actions. Record
classes whose fields the source sets before converting are datatypes updated on a local
variable. The index, the `Guid` source and `MinimalSearchResult` are classes with mutable
fields.

`UpsertIndexDocuments.Run` and `UpsertIndexDocuments.Sync` model `RunAsync` with one correction.
The read of the last chunk index at line 106 of `src/Api/Functions/UpsertIndexDocuments.cs` is
replaced by its evident intent, `UpsertIndexDocuments.LastChunkIndex`. As written, that read
throws on every non-empty batch before anything is deleted or written. The as-written behaviour
is modelled beside the corrected one; see "## Findings".

Where the code and the design description of the system differ, the model follows the code:

- `UpsertIndexDocuments` deletes the stale chunks before it merges the new ones in.
- When the split produces no paragraph, the last chunk index defaults to 0, so chunk
  `"{NoteId}-0"` survives.
- `FetchNote` sits in namespace `Api.Functions`. C# name lookup therefore binds
  `SourceNoteRecord` to `Api.SourceNoteRecord` there, despite the `using Api.Models` directive.
  `UpsertIndexDocuments` binds it the same way.
- The two batch loaders read `NoteInHtml` and call `ToDictionary`, which only
  `Api.Models.SourceNoteRecord` has. They are modelled over that class.

Module map:

| file | module | models |
|---|---|---|
| wrappers.dfy | Wrappers | `Option` |
| sequences.dfy | Sequences | filtering a sequence through a partial map |
| text.dfy | Text | the .NET string and number functions the code calls |
| values.dfy | Values | boxed field values, field maps, `Guid.NewGuid` |
| chunking.dfy | Chunking | settings, the overlap conversion, the chunker collaborators |
| search_index.dfy | SearchIndexes | the search index and its actions |
| api_record.dfy | ApiRecord | `src/Api/SourceNoteRecord.cs` |
| api_models_record.dfy | ApiModelsRecord | `src/Api/Models/SourceNoteRecord.cs` |
| orchestration_record.dfy | OrchestrationRecord | `src/IndexOrchestration/Models/SourceNoteRecord.cs` |
| upsert_index_documents.dfy | UpsertIndexDocuments | `src/Api/Functions/UpsertIndexDocuments.cs` |
| api_functions_index_upserter.dfy | ApiFunctionsIndexUpserter | `src/Api/Functions/IndexUpserter.cs` |
| api_index_upserter.dfy | ApiIndexUpserter | `src/Api/IndexUpserter.cs` |
| orchestration_index_upserter.dfy | OrchestrationIndexUpserter | `src/IndexOrchestration/Functions/IndexUpserter.cs` |
| azure_search_service.dfy | AzureSearchService | `AzureSearchService.QueryDocumentsAsync` |
| minimal_search_result.dfy | MinimalSearchResults | `MinimalSearchResult` |
| fetch_note.dfy | FetchNote | `src/Api/Functions/FetchNote.cs` |

## Model

| member | source | states |
|---|---|---|
| Sequences.FilterMapFollows | src/ChatApp/ChatApp.Server/Services/AzureSearchService.cs:67-103 | The kept results of a filtering loop match, one to one and in order, the inputs the map accepts; every accepted input is kept. |
| Text.Trim | src/Api/Functions/UpsertIndexDocuments.cs:45 | `Trim` never lengthens a string. |
| Text.TrimIsInfix | src/Api/Functions/UpsertIndexDocuments.cs:45 | The trimmed text is the infix after the leading white space. Only white space follows it. It neither starts nor ends with white space. |
| Text.LeadingWhiteSpace | src/Api/Functions/UpsertIndexDocuments.cs:45 | Counts exactly the white space before the first other character. |
| Text.TrimStartBy | src/Api/Functions/UpsertIndexDocuments.cs:45 | The dropped prefix is all white and the result does not start with white. |
| Text.TrimEndBy | src/Api/Functions/UpsertIndexDocuments.cs:45 | The dropped suffix is all white and the result does not end with white. |
| Text.RemoveChar | src/Api/Functions/UpsertIndexDocuments.cs:45 | `Replace("\uFEFF", "")` removes every occurrence of the character and keeps every other character with its multiplicity. A string without it is unchanged. |
| Text.Cleaned | src/Api/Functions/IndexUpserter.cs:43 | The cleaned blob text holds no byte-order mark. |
| Text.ReplaceChar | src/ChatApp/ChatApp.Server/Services/AzureSearchService.cs:100 | `Replace(from, to)` keeps the length and changes exactly the `from` characters. |
| Text.LastSegment | src/Api/Functions/UpsertIndexDocuments.cs:66 | `Split(sep)[^1]` holds no separator. |
| Text.LastSegmentIsSuffix | src/Api/Functions/UpsertIndexDocuments.cs:66 | The last segment is the suffix after the last separator, or the whole string. |
| Text.LastSegmentOfJoin | src/Api/Functions/UpsertIndexDocuments.cs:114 | The last segment of `a + sep + b`, where `b` has no separator, is `b`. |
| Text.JoinInjective | src/Api/Functions/UpsertIndexDocuments.cs:220 | Joining with a separator absent from the right parts is injective. |
| Text.LastSegmentWithoutSeparator | src/Api/Functions/UpsertIndexDocuments.cs:66 | A path without `/` is its own last segment, so it becomes the title whole. |
| Text.NatToStringDigits | src/Api/Functions/UpsertIndexDocuments.cs:220 | Decimal text of a natural number is all digits, without a leading zero unless the number is 0. |
| Text.IntToStringDigits | src/Api/Functions/UpsertIndexDocuments.cs:220 | Decimal text of an integer is digits, after a `-` for a negative number. |
| Text.DigitsRoundTrip | src/Api/Functions/UpsertIndexDocuments.cs:220 | Reading back the digits of `n` gives `n`. |
| Text.ParseIntegerRoundTrip | src/Api/Functions/UpsertIndexDocuments.cs:220 | Parsing the formatted integer gives the integer back. |
| Text.IntToStringInjective | src/Api/Functions/UpsertIndexDocuments.cs:220 | Different integers format differently. |
| Text.ParseInt32 | src/Api/Functions/UpsertIndexDocuments.cs:114 | `int.Parse` fails on the empty string. |
| Text.ParseInt32Trims | src/Api/Functions/FetchNote.cs:29 | `int.Parse` ignores surrounding white space and reads an optional sign and digits, within the `int` range. |
| Text.ParseInt32RoundTrip | src/Api/Functions/UpsertIndexDocuments.cs:114 | `int.Parse(n.ToString()) == n` for every `int`. |
| Values.CollectProperties | src/Api/SourceNoteRecord.cs:51-57 | The property loop adds one entry per property not skipped, holding that property's value. |
| Values.GuidSource.constructor | src/Api/Models/SourceNoteRecord.cs:24 | A fresh `Guid` source starts at the first serial. |
| Values.GuidSource.NewGuid | src/Api/Models/SourceNoteRecord.cs:24 | `Guid.NewGuid` returns the next serial, never returned before in the run. |
| Chunking.RoundHalfEven | src/Api/Functions/IndexUpserter.cs:235 | `Convert.ToInt32(decimal)` gives the nearest integer, with ties to even. |
| Chunking.RoundHalfEvenUnique | src/Api/Functions/IndexUpserter.cs:235 | That nearest-even integer is unique. |
| Chunking.OverlapTokens | src/Api/Functions/IndexUpserter.cs:235 | The overlap is the nearest-even rounding of `ChunkOverlapPercent * MaxChunkSize`, computed exactly. It overflows exactly when the rounding leaves the `int` range. |
| Chunking.DefaultOverlapIs128 | src/Api/FunctionSettings.cs:71-72 | With the defaults (512 tokens, 0.25) the overlap is 128 tokens. |
| SearchIndexes.GuidTextInjective | src/Api/Models/SourceNoteRecord.cs:24 | Different `Guid`s give different key texts. |
| SearchIndexes.KeyOf | src/Api/Functions/IndexUpserter.cs:133 | A document is stored under its non-empty `IndexRecordId` text. |
| SearchIndexes.IndexedFrame | src/Api/Functions/UpsertIndexDocuments.cs:162 | A batch adds exactly its keys and leaves the documents under other keys unchanged. |
| SearchIndexes.IndexedStores | src/Api/Functions/UpsertIndexDocuments.cs:162 | With distinct keys, each key afterwards holds its batch document. Under `MergeOrUpload` it is merged over what was stored. |
| SearchIndexes.NoteKeys | src/Api/Functions/UpsertIndexDocuments.cs:257-272 | The note's keys are stored keys. |
| SearchIndexes.SearchIndex.constructor | src/Api/Functions/IndexUpserter.cs:49-54 | A new index is empty. |
| SearchIndexes.SearchIndex.Recreate | src/Api/IndexUpserter.cs:49-51 | Dropping and recreating the index empties it. |
| SearchIndexes.SearchIndex.DeleteDocuments | src/Api/Functions/UpsertIndexDocuments.cs:128-140 | Deleting removes exactly the given keys. |
| SearchIndexes.SearchIndex.IndexDocuments | src/Api/Functions/UpsertIndexDocuments.cs:153-179 | An index action applies the batch document by document. |
| SearchIndexes.SearchIndex.KeysOfNote | src/Api/Functions/UpsertIndexDocuments.cs:257-272 | The query returns each key of the note's documents once. |
| ApiRecord.Copy | src/Api/SourceNoteRecord.cs:6-25 | The copy constructor: the copied properties equal the original's and the unassigned ones keep their defaults. `NoteChunk` is overridden only by a non-white chunk, and `NoteChunkOrder` only by a non-null index. |
| ApiRecord.CopyDropsDemographics | src/Api/SourceNoteRecord.cs:8-23 | A copy has `Gender` `""`, `BirthDate` null and `IndexRecordId` `""`, whatever the original held. |
| ApiRecord.PropertyNamesDistinct | src/Api/SourceNoteRecord.cs:26-45 | The record's property names are distinct. |
| ApiRecord.OnlyNoteContentMatches | src/Api/SourceNoteRecord.cs:53 | Among the property names, only `NoteContent` equals "NoteContent" ignoring case. |
| ApiRecord.IndexedPropertiesAreAllButContent | src/Api/SourceNoteRecord.cs:47-60 | The indexed keys are all property names except `NoteContent`. |
| ApiRecord.IndexFields | src/Api/SourceNoteRecord.cs:47-60 | The field map has exactly the indexed keys, each with its property's value. |
| ApiRecord.FieldsDetermineDocument | src/Api/SourceNoteRecord.cs:47-60 | Any map with those keys and values is that field map. |
| ApiRecord.ToDictionaryForIndexing | src/Api/SourceNoteRecord.cs:47-60 | The loop builds one entry per property except `NoteContent`, each holding the property's value. |
| ApiModelsRecord.New | src/Api/Models/SourceNoteRecord.cs:5 | A new record has a fresh `IndexRecordId`, empty strings, an empty vector and null numbers and dates. |
| ApiModelsRecord.Copy | src/Api/Models/SourceNoteRecord.cs:6-23 | The copy constructor copies its properties and leaves `Gender`/`BirthDate` at their defaults, with the same chunk and order override rules. |
| ApiModelsRecord.CopyTakesFreshId | src/Api/Models/SourceNoteRecord.cs:24 | A copy gets the fresh `Guid`, `Gender` `""` and `BirthDate` null. |
| ApiModelsRecord.PropertyNamesDistinct | src/Api/Models/SourceNoteRecord.cs:24-41 | The record's property names are distinct. |
| ApiModelsRecord.DictionaryPropertiesAreAllButContent | src/Api/Models/SourceNoteRecord.cs:49 | The dictionary keys are all properties except `NoteContent`, `NoteInHtml` and `NoteInText`. |
| ApiModelsRecord.Fields | src/Api/Models/SourceNoteRecord.cs:43-56 | The field map has exactly those keys, each with its property's value. |
| ApiModelsRecord.FieldsDetermineDocument | src/Api/Models/SourceNoteRecord.cs:43-56 | Any map with those keys and values is that field map. |
| ApiModelsRecord.ToDictionary | src/Api/Models/SourceNoteRecord.cs:43-56 | The loop builds exactly the field map. |
| OrchestrationRecord.New | src/IndexOrchestration/Models/SourceNoteRecord.cs:5 | A new record has a fresh `IndexRecordId`, empty strings, an empty vector and null numbers and dates. |
| OrchestrationRecord.Copy | src/IndexOrchestration/Models/SourceNoteRecord.cs:6-21 | The copy constructor's copied and defaulted properties, and its chunk and order override rules. |
| OrchestrationRecord.CopyTakesFreshId | src/IndexOrchestration/Models/SourceNoteRecord.cs:22 | A copy gets the fresh `Guid` and loses `Gender` and `BirthDate`. |
| OrchestrationRecord.PropertyNamesDistinct | src/IndexOrchestration/Models/SourceNoteRecord.cs:22-37 | The record's property names are distinct. |
| OrchestrationRecord.DictionaryPropertiesAreAllButContent | src/IndexOrchestration/Models/SourceNoteRecord.cs:45 | The dictionary keys are all properties except `NoteContent`. |
| OrchestrationRecord.Fields | src/IndexOrchestration/Models/SourceNoteRecord.cs:39-52 | The field map has exactly those keys, each with its property's value; `NoteId` is an `int`. |
| OrchestrationRecord.FieldsDetermineDocument | src/IndexOrchestration/Models/SourceNoteRecord.cs:39-52 | Any map with those keys and values is that field map. |
| OrchestrationRecord.ToDictionary | src/IndexOrchestration/Models/SourceNoteRecord.cs:39-52 | The loop builds exactly the field map. |
| UpsertIndexDocuments.NoSeparatorInOrder | src/Api/Functions/UpsertIndexDocuments.cs:220 | The text of an order `>= 0` holds no `-`. |
| UpsertIndexDocuments.KeyRoundTrip | src/Api/Functions/UpsertIndexDocuments.cs:114 | Parsing the last `-` segment of `"{NoteId}-{order}"` gives back `order`, even for a negative note id. |
| UpsertIndexDocuments.KeyInjective | src/Api/Functions/UpsertIndexDocuments.cs:220 | Keys of different notes or orders differ. |
| UpsertIndexDocuments.Converted | src/Api/Functions/UpsertIndexDocuments.cs:211-220 | The overrides apply only for a non-white chunk and a non-null order. The key is recomputed from the note id and the settled order. Nothing else changes. |
| UpsertIndexDocuments.ChunkDocument | src/Api/Functions/UpsertIndexDocuments.cs:222-231 | A chunk document has exactly the indexed keys. |
| UpsertIndexDocuments.ChunkDocumentFields | src/Api/Functions/UpsertIndexDocuments.cs:222-229 | Every field except the vector is the converted record's. The vector is the chunk's embedding exactly when the chunk has text, and otherwise the record's own vector. |
| UpsertIndexDocuments.ChunkDocumentKey | src/Api/Functions/UpsertIndexDocuments.cs:220 | A chunk document is stored under `"{NoteId}-{order}"`. |
| UpsertIndexDocuments.ConvertToSearchDocument | src/Api/Functions/UpsertIndexDocuments.cs:211-234 | The conversion method builds the chunk document. |
| UpsertIndexDocuments.ParagraphDocuments | src/Api/Functions/UpsertIndexDocuments.cs:201-206 | One document per paragraph: paragraph `i` converted from a fresh copy with order `i`. |
| UpsertIndexDocuments.ConvertParagraphs | src/Api/Functions/UpsertIndexDocuments.cs:201-206 | The paragraph loop yields exactly the paragraph documents: paragraph `i` converted from a copy of the note with order `i`. |
| UpsertIndexDocuments.RecursivelySplitNoteContent | src/Api/Functions/UpsertIndexDocuments.cs:184-209 | The split: no documents for a note without content, an error when the overlap overflows, else the paragraph documents. |
| UpsertIndexDocuments.MaxOrder | src/Api/Functions/UpsertIndexDocuments.cs:104-107 | The largest stored `int` order of a batch, attained by some document; `None` when no document stores one. |
| UpsertIndexDocuments.LastChunkIndex | src/Api/Functions/UpsertIndexDocuments.cs:104-107 | The corrected last chunk index: no document of the batch stores a larger order. It is the order of some document, or 0 when none stores one. |
| UpsertIndexDocuments.LastInOrder | src/Api/Functions/UpsertIndexDocuments.cs:105-107 | The last document of the stable sort by order is a batch document. |
| UpsertIndexDocuments.StaleKeys | src/Api/Functions/UpsertIndexDocuments.cs:112-118 | The stale keys are among the note's keys. |
| UpsertIndexDocuments.StaleKeysAddOne | src/Api/Functions/UpsertIndexDocuments.cs:116-117 | A key joins the stale set exactly when its order exceeds the last chunk index. |
| UpsertIndexDocuments.StaleInOrderIsStaleKeys | src/Api/Functions/UpsertIndexDocuments.cs:112-118 | The loop throws exactly when some key does not end in an `int`, and otherwise collects exactly the stale set. |
| UpsertIndexDocuments.CollectStaleKeys | src/Api/Functions/UpsertIndexDocuments.cs:109-118 | The `await foreach` collects exactly the keys whose order exceeds the last index, or throws on a key that does not parse. |
| UpsertIndexDocuments.DeleteOldChunks | src/Api/Functions/UpsertIndexDocuments.cs:102-147 | The note's stale keys are deleted when there are any, and nothing else is. The run fails if a key does not parse. |
| UpsertIndexDocuments.ReadNote | src/Api/Functions/UpsertIndexDocuments.cs:45-93 | The blob is cleaned and decoded. A null record, a missing id or blank content stop the run, and so does an overflowing overlap; otherwise the note's batch is ready. |
| UpsertIndexDocuments.BuildDocuments | src/Api/Functions/UpsertIndexDocuments.cs:78-93 | One chunk when the note fits `MaxChunkSize` tokens, the split otherwise. |
| UpsertIndexDocuments.Run | src/Api/Functions/UpsertIndexDocuments.cs:40-100 | `RunAsync` with line 106 corrected: the outcome is the plan for the index before the run. Only a completed sync changes the index, deleting the stale keys and then merging the batch in. As written, a non-empty batch throws first (`RunAsWrittenThrowsOnEveryBatch`). |
| UpsertIndexDocuments.Sync | src/Api/Functions/UpsertIndexDocuments.cs:96-99 | With the corrected last chunk index: the stale chunks are deleted, then the batch is merged in; a key that does not parse leaves the index unchanged. |
| UpsertIndexDocuments.ChunkDocumentOrder | src/Api/Functions/UpsertIndexDocuments.cs:216-217 | A chunk document stores its settled order as an `int`. |
| UpsertIndexDocuments.ChunkDocumentNote | src/Api/Functions/UpsertIndexDocuments.cs:222 | A chunk document belongs to the record's note. |
| UpsertIndexDocuments.ChunkDocumentIsChunk | src/Api/Functions/UpsertIndexDocuments.cs:211-231 | A chunk document is keyed `"{NoteId}-{i}"` and stores order `i` and the note id. |
| UpsertIndexDocuments.ConvertedKeeps | src/Api/Functions/UpsertIndexDocuments.cs:211-220 | The conversion keeps the note id, file path, title and URL. |
| UpsertIndexDocuments.CopyKeepsNoteId | src/Api/SourceNoteRecord.cs:8 | A paragraph copy keeps the note id. |
| UpsertIndexDocuments.NoteDocumentsAreNumbered | src/Api/Functions/UpsertIndexDocuments.cs:80-93 | Every batch of a note is numbered: document `i` is chunk `i` of the note. |
| UpsertIndexDocuments.PreparedBatchIsNumbered | src/Api/Functions/UpsertIndexDocuments.cs:45-93 | Every batch a run gets ready is numbered for its note. |
| UpsertIndexDocuments.RecordBatchIsNumbered | src/Api/Functions/UpsertIndexDocuments.cs:56-93 | The same for a decoded record. |
| UpsertIndexDocuments.NumberedKeysDistinct | src/Api/Functions/UpsertIndexDocuments.cs:220 | A numbered batch has pairwise distinct keys. |
| UpsertIndexDocuments.NumberedBatchKeys | src/Api/Functions/UpsertIndexDocuments.cs:220 | A batch of `n` chunks writes exactly the keys `"{NoteId}-0"` to `"{NoteId}-{n-1}"`. |
| UpsertIndexDocuments.NumberedLastChunkIndex | src/Api/Functions/UpsertIndexDocuments.cs:104-107 | The intended last chunk index of a numbered batch is its last position, and 0 for an empty batch. |
| UpsertIndexDocuments.NoteKeyOrder | src/Api/Functions/UpsertIndexDocuments.cs:114 | In an index built by this function, every key of the note ends in an order `>= 0` that parses back. |
| UpsertIndexDocuments.OtherNoteKey | src/Api/Functions/UpsertIndexDocuments.cs:257-263 | A document of another note is under no key of this note. |
| UpsertIndexDocuments.GuidKeyHasNoOrder | src/Api/Functions/UpsertIndexDocuments.cs:114 | `int.Parse` of the last `-` group of a `Guid` key throws. |
| UpsertIndexDocuments.GuidKeyedNoteStopsSync | src/Api/Functions/UpsertIndexDocuments.cs:112-118 | If the note has a document under a `Guid` key, written by a batch loader into the same index, the key loop throws. The sync then stops with the index unchanged. |
| UpsertIndexDocuments.ChunkNotStale | src/Api/Functions/UpsertIndexDocuments.cs:116 | No chunk of the new batch is stale. |
| UpsertIndexDocuments.SyncStoresChunk | src/Api/Functions/UpsertIndexDocuments.cs:96-99 | After a sync, chunk `i` of the note holds batch document `i`, merged over the stored one. |
| UpsertIndexDocuments.SyncNoteKeys | src/Api/Functions/UpsertIndexDocuments.cs:96-99 | After a sync, the note's keys are exactly the batch's keys. |
| UpsertIndexDocuments.SyncKeepsOtherNotes | src/Api/Functions/UpsertIndexDocuments.cs:96-99 | A sync leaves every other note's documents as they were. |
| UpsertIndexDocuments.SyncKeepsWellKeyed | src/Api/Functions/UpsertIndexDocuments.cs:96-99 | A sync keeps every key of the form `"{NoteId}-{order}"` for its document. |
| UpsertIndexDocuments.SyncReplacesTheNotesChunks | src/Api/Functions/UpsertIndexDocuments.cs:96-118 | A sync of a non-empty batch completes. Afterwards the note has exactly the batch's chunks, other notes are untouched and the index stays well keyed. |
| UpsertIndexDocuments.SyncOfEmptyBatchKeepsChunkZero | src/Api/Functions/UpsertIndexDocuments.cs:104-118 | An empty batch deletes every chunk of the note except `"{NoteId}-0"`. |
| UpsertIndexDocuments.LastChunkIndexAsWrittenThrows | src/Api/Functions/UpsertIndexDocuments.cs:106 | As written, reading the last chunk index of a non-empty numbered batch throws; the intended value is its last position. |
| UpsertIndexDocuments.RunAsWrittenThrowsOnEveryBatch | src/Api/Functions/UpsertIndexDocuments.cs:96-107 | As written, every run that gets a non-empty batch ready throws before deleting or writing. |
| UpsertIndexDocuments.FastPathBatchIsOneChunk | src/Api/Functions/UpsertIndexDocuments.cs:86-93 | A note that fits gives exactly one document, chunk 0 of the note. |
| UpsertIndexDocuments.ChunkDocumentSource | src/Api/Functions/UpsertIndexDocuments.cs:222 | A chunk document stores the record's file path, title and URL. |
| UpsertIndexDocuments.CopyKeepsSource | src/Api/SourceNoteRecord.cs:21-23 | A copy keeps the file path, title and URL. |
| UpsertIndexDocuments.ChunkDocumentCarriesBlob | src/Api/Functions/UpsertIndexDocuments.cs:65-67 | A record holding the blob's metadata gives a document carrying the blob path, its last `/` segment as title, and the URI. |
| UpsertIndexDocuments.ParagraphsCarryBlob | src/Api/Functions/UpsertIndexDocuments.cs:201-206 | Every paragraph document carries the blob. |
| UpsertIndexDocuments.RecordBatchCarriesBlob | src/Api/Functions/UpsertIndexDocuments.cs:65-93 | Every document of a decoded record's batch carries the blob. |
| UpsertIndexDocuments.NoteDocumentsCarryBlob | src/Api/Functions/UpsertIndexDocuments.cs:78-93 | Split or not, every document carries the blob. |
| UpsertIndexDocuments.PreparedBatchCarriesBlob | src/Api/Functions/UpsertIndexDocuments.cs:40-93 | Every document a run gets ready carries the blob's path, title and URI. |
| UpsertIndexDocuments.ParagraphIsEmbedded | src/Api/Functions/UpsertIndexDocuments.cs:213-229 | A paragraph with text is its document's chunk, and the vector is its embedding. |
| UpsertIndexDocuments.FastPathIsEmbedded | src/Api/Functions/UpsertIndexDocuments.cs:89-92 | The single chunk is the whole note, embedded whole. |
| ApiFunctionsIndexUpserter.ReadRecordsInOrder | src/Api/Functions/IndexUpserter.cs:63-69 | The parse throws exactly when some value does not deserialise. Otherwise it gives one record per value in stream order, with a new record for each `null`. |
| ApiFunctionsIndexUpserter.ReadRecordsStops | src/Api/Functions/IndexUpserter.cs:65-69 | After a value throws, nothing later is read. |
| ApiFunctionsIndexUpserter.ReadAll | src/Api/Functions/IndexUpserter.cs:63-69 | The `while (Read())` loop yields the parse result and draws one `Guid` per `null`. |
| ApiFunctionsIndexUpserter.ConvertToSearchDocument | src/Api/Functions/IndexUpserter.cs:251-271 | The conversion method builds the chunk document. |
| ApiFunctionsIndexUpserter.ChunkDocumentFields | src/Api/Functions/IndexUpserter.cs:253-266 | The document stores the converted key, chunk and order. The vector is the chunk's embedding exactly when the chunk has text. |
| ApiFunctionsIndexUpserter.ParagraphDocuments | src/Api/Functions/IndexUpserter.cs:241-246 | One document per paragraph. |
| ApiFunctionsIndexUpserter.RecursivelySplitNoteContent | src/Api/Functions/IndexUpserter.cs:224-249 | The split yields the paragraph documents and draws one `Guid` per paragraph. |
| ApiFunctionsIndexUpserter.LoadNote | src/Api/Functions/IndexUpserter.cs:171-189 | A note's documents: one chunk when it fits, the split otherwise. |
| ApiFunctionsIndexUpserter.FastPathIsOneChunk | src/Api/Functions/IndexUpserter.cs:183-188 | A note that fits gives one document holding `NoteInHtml` (or `""`) at order 0 under its own key. It is embedded exactly when the note has HTML. |
| ApiFunctionsIndexUpserter.ParagraphDocumentAt | src/Api/Functions/IndexUpserter.cs:241-246 | Paragraph `i` has order `i` and key `Guid` `firstId + i`. Its chunk is the paragraph if that has text. It is embedded exactly when its chunk has text. |
| ApiFunctionsIndexUpserter.ParagraphKeysDistinct | src/Api/Functions/IndexUpserter.cs:241-246 | One split's documents have distinct keys. |
| ApiFunctionsIndexUpserter.SplitWithoutHtmlIsEmpty | src/Api/Functions/IndexUpserter.cs:226-227 | A split note without HTML gives no documents and draws no `Guid`. |
| ApiFunctionsIndexUpserter.BatchStops | src/Api/Functions/IndexUpserter.cs:169-192 | Once a record overflows, later records are not loaded. |
| ApiFunctionsIndexUpserter.BuildBatch | src/Api/Functions/IndexUpserter.cs:167-192 | The record loop accumulates the batch specification. |
| ApiFunctionsIndexUpserter.BatchOverflowsIff | src/Api/Functions/IndexUpserter.cs:169-192 | The batch fails exactly when some record is split with HTML and an overflowing overlap. |
| ApiFunctionsIndexUpserter.BatchAppend | src/Api/Functions/IndexUpserter.cs:191 | The batch of `a + b` is the batch of `a` followed by the batch of `b`. |
| ApiFunctionsIndexUpserter.BatchOfOne | src/Api/Functions/IndexUpserter.cs:169-191 | The batch of one record is that record's documents. |
| ApiFunctionsIndexUpserter.Run | src/Api/Functions/IndexUpserter.cs:40-76 | Outside production the index is reset. A parse or overlap failure uploads nothing; otherwise the whole batch is uploaded. |
| ApiIndexUpserter.ConvertToSearchDocument | src/Api/IndexUpserter.cs:200-211 | The conversion method builds the document. |
| ApiIndexUpserter.ChunkDocumentFields | src/Api/IndexUpserter.cs:200-211 | The document stores the record's key, chunk and order, and the embedding of the whole `NoteInHtml` (or `""`). |
| ApiIndexUpserter.ParagraphDocuments | src/Api/IndexUpserter.cs:237-247 | One document per paragraph. |
| ApiIndexUpserter.RecursivelySplitNoteContent | src/Api/IndexUpserter.cs:213-250 | The `for` loop yields the paragraph documents and draws one `Guid` per paragraph. |
| ApiIndexUpserter.LoadNote | src/Api/IndexUpserter.cs:169-184 | A note's documents: one chunk when it fits, the split otherwise. |
| ApiIndexUpserter.SplitRecordKeepsHtml | src/Api/IndexUpserter.cs:240-243 | A paragraph's copy keeps `NoteInHtml` and takes a fresh `Guid`. |
| ApiIndexUpserter.ParagraphDocumentAt | src/Api/IndexUpserter.cs:237-247 | Paragraph `i` has the paragraph as its chunk, order `i` and a fresh key. |
| ApiIndexUpserter.ParagraphKeysDistinct | src/Api/IndexUpserter.cs:237-247 | One split's documents have distinct keys. |
| ApiIndexUpserter.NoteDocumentsShareEmbedding | src/Api/IndexUpserter.cs:202-206 | Every document of a note carries the embedding of the whole note's HTML, not of its chunk. |
| ApiIndexUpserter.FastPathIsOneChunk | src/Api/IndexUpserter.cs:179-184 | A note that fits gives one document with its content as the chunk, at order 0. |
| ApiIndexUpserter.SplitWithoutHtmlIsEmpty | src/Api/IndexUpserter.cs:215-216 | A split note without HTML gives no documents. |
| ApiIndexUpserter.BatchStops | src/Api/IndexUpserter.cs:165-187 | Once a record overflows, later records are not loaded. |
| ApiIndexUpserter.BuildBatch | src/Api/IndexUpserter.cs:163-187 | The record loop accumulates the batch specification. |
| ApiIndexUpserter.BatchAppend | src/Api/IndexUpserter.cs:186 | The batch of `a + b` is the batch of `a` followed by the batch of `b`. |
| ApiIndexUpserter.Run | src/Api/IndexUpserter.cs:38-75 | The index is always recreated. A failure leaves it empty; otherwise the batch is uploaded into the empty index. |
| OrchestrationIndexUpserter.ConvertToSearchDocument | src/IndexOrchestration/Functions/IndexUpserter.cs:135-155 | The conversion method builds the chunk document. |
| OrchestrationIndexUpserter.ChunkDocumentFields | src/IndexOrchestration/Functions/IndexUpserter.cs:137-150 | The document stores the converted key, chunk and order. The vector is the chunk's embedding exactly when the chunk has text. |
| OrchestrationIndexUpserter.ParagraphDocuments | src/IndexOrchestration/Functions/IndexUpserter.cs:125-130 | One document per paragraph. |
| OrchestrationIndexUpserter.RecursivelySplitNoteContent | src/IndexOrchestration/Functions/IndexUpserter.cs:108-133 | The split yields the paragraph documents and draws one `Guid` per paragraph. |
| OrchestrationIndexUpserter.FastPathIsOneChunk | src/IndexOrchestration/Functions/IndexUpserter.cs:68-74 | A note that fits gives one document holding `NoteContent` (or `""`) at order 0. |
| OrchestrationIndexUpserter.ParagraphDocumentAt | src/IndexOrchestration/Functions/IndexUpserter.cs:125-130 | Paragraph `i` has order `i` and a fresh key. It is embedded exactly when its chunk has text. |
| OrchestrationIndexUpserter.ParagraphKeysDistinct | src/IndexOrchestration/Functions/IndexUpserter.cs:125-130 | One split's documents have distinct keys. |
| OrchestrationIndexUpserter.Run | src/IndexOrchestration/Functions/IndexUpserter.cs:37-106 | A decode failure or `null` returns with the index untouched. Otherwise the note's documents are uploaded. |
| OrchestrationIndexUpserter.UploadedIsTheNotesDocuments | src/IndexOrchestration/Functions/IndexUpserter.cs:41-87 | A note is uploaded exactly when it decodes and its documents can be built. What is uploaded is those documents, one of them on the fast path. |
| OrchestrationIndexUpserter.SplitWithoutContentIsEmpty | src/IndexOrchestration/Functions/IndexUpserter.cs:110-111 | A split note without content gives no documents. |
| AzureSearchService.CastContent | src/ChatApp/ChatApp.Server/Services/AzureSearchService.cs:80-89 | The string cast of `NoteChunk` raises exactly when the value is neither null nor a string; a missing key reads as null. |
| AzureSearchService.AdditionalContent | src/ChatApp/ChatApp.Server/Services/AzureSearchService.cs:92 | The additional content is exactly the hit's entries whose key is on the 13-name allow-list. |
| AzureSearchService.FlattenReplacesLineBreaks | src/ChatApp/ChatApp.Server/Services/AzureSearchService.cs:100 | The length is kept and exactly the CR and LF characters become spaces, so none remain. |
| AzureSearchService.CitationFields | src/ChatApp/ChatApp.Server/Services/AzureSearchService.cs:94-101 | A citation copies title, URL and path. Its content is the flattened chunk. Its chunk id parses back to the chunk order. Its additional content is the allow-listed entries. |
| AzureSearchService.CitationsFollowHits | src/ChatApp/ChatApp.Server/Services/AzureSearchService.cs:68-103 | Citations correspond one to one, in order, to the hits that pass the type test. |
| AzureSearchService.QueryDocuments | src/ChatApp/ChatApp.Server/Services/AzureSearchService.cs:26-106 | Both arguments null gives `ArgumentException`. A chunk of the wrong type raises. Otherwise the citations of the hits are returned, with intent `[query]`. |
| MinimalSearchResults.TypedFields | src/ChatApp/ChatApp.Server/Models/MinimalSearchResult.cs:12-53 | A field is taken exactly when its key is present with a value of the expected runtime type. |
| MinimalSearchResults.ProjectOfUntypedDocument | src/ChatApp/ChatApp.Server/Models/MinimalSearchResult.cs:56-70 | With no usable field, the result is the score plus the defaults: `IndexRecordId` `""` and null everywhere else. |
| MinimalSearchResults.Int32IdsAreDropped | src/ChatApp/ChatApp.Server/Models/MinimalSearchResult.cs:15-23 | A `NoteId`, `CSN` or `MRN` stored as `int` leaves the property null. |
| MinimalSearchResults.ProjectReadsOnlyItsFields | src/ChatApp/ChatApp.Server/Models/MinimalSearchResult.cs:8-54 | Two hits agreeing on the 14 projected keys give the same result. |
| MinimalSearchResults.ProjectIgnoresOtherKeys | src/ChatApp/ChatApp.Server/Models/MinimalSearchResult.cs:8-54 | Adding, changing or removing a non-projected key does not change the result. |
| MinimalSearchResults.ChunkIsNotProjected | src/ChatApp/ChatApp.Server/Models/MinimalSearchResult.cs:56-70 | `NoteChunk` and `NoteChunkVector` are not projected keys. |
| MinimalSearchResults.MinimalSearchResult.Empty | src/ChatApp/ChatApp.Server/Models/MinimalSearchResult.cs:7 | The empty constructor leaves every property at its initialiser. |
| MinimalSearchResults.MinimalSearchResult.constructor | src/ChatApp/ChatApp.Server/Models/MinimalSearchResult.cs:8-54 | The constructor leaves the score and, for each property, the typed value of its key or the default. |
| FetchNote.LineEnd | src/Api/Functions/FetchNote.cs:67 | The first line ends at the first CR or LF, or at the end. |
| FetchNote.NextLine | src/Api/Functions/FetchNote.cs:67 | `ReadLine` consumes the line and one break, `\r\n` counting as one; it always advances. |
| FetchNote.LinesOfJoined | src/Api/Functions/FetchNote.cs:63-80 | Lines without breaks, written one per line, are read back exactly. |
| FetchNote.LinesHaveNoBreaks | src/Api/Functions/FetchNote.cs:67 | No line read holds a line break. |
| FetchNote.NotesFollowLines | src/Api/Functions/FetchNote.cs:63-80 | The records correspond one to one, in order, to the lines that are neither blank nor `null`. There are at most as many records as lines. |
| FetchNote.DeserializeNdJson | src/Api/Functions/FetchNote.cs:59-81 | The loop yields the records of the lines, or fails when a line does not deserialise. |
| FetchNote.FindIsFirst | src/Api/Functions/FetchNote.cs:52 | `Find` gives nothing exactly when no note has the id, and otherwise the first note that has it. |
| FetchNote.FetchAnswers | src/Api/Functions/FetchNote.cs:25-57 | `BadRequest` exactly when the route value does not parse as an `int`. Otherwise `Ok` returns the first note of the id, and `NotFound` means no note has it. |
| FetchNote.Run | src/Api/Functions/FetchNote.cs:25-57 | The function checks the route, reads the blob, parses it and looks the note up. |

## Left out

- Async, logging, `Console.WriteLine`, timing, and the Azure clients' transport. The Azure
  calls' results are parameters or index actions.
- JSON (de)serialisation. Decoding is a parameter returning a record, `null` or an exception.
  The multiple-content reader of the batch loaders is a parameter giving one result per value.
  The JSON text of a citation's additional content is not produced; the entry map is.
- Floating point. Embedding vectors, relevancy scores and `float` lists are opaque, and
  embeddings are the symbolic `Embedding(text)`.
- The token counter, layout analysis and `TextChunker` are uninterpreted functions. No bound on
  token counts or paragraph overlap is stated.
- Index schema creation (`CreateOrUpdateIndexAsync`, vectorizer and semantic configuration) is
  not modelled; the index is a map from key to document.
- The search itself in `QueryDocumentsAsync` is left out: query options, the vector query, the
  semantic configuration and the top-5 limit. Its hits are a parameter. The `embedding`
  argument takes part only in the argument check.
- Exceptions other than the ones named in each outcome type are not modelled. These include
  network failures, a missing blob and index operations failing as a whole.
- Partial failures reported in an `AggregateException` are swallowed. Each failing action is
  modelled as changing nothing, so the loaders' `Run` methods state the index as if every action
  succeeded.
- UpsertIndexDocuments.Run: models `RunAsync` with the last-chunk-index read of line 106 replaced by
  `LastChunkIndex`. As written, every non-empty batch throws there (see "## Findings"), so the
  delete and merge that `Run` and `Sync` describe never happen in the code as it stands.
- SearchIndexes.SearchIndex.DeleteDocuments: deletes by key, which is what the call at
  `src/Api/Functions/UpsertIndexDocuments.cs:130` intends. The call passes only the list of keys.
  The SDK's key-based delete takes the key field's name as well, so this call binds to the
  overload that takes documents and sends each key text as a whole document. Such a batch most
  likely deletes nothing or fails. This is not modelled; the deletion is also unreachable as
  written, because line 106 throws first.
- SearchIndexes.GuidText: a `Guid` key is written as the `Guid`'s serial, a `-` and the group
  `a`. The 8-4-4-4-12 hexadecimal layout of `Guid.ToString()` is not modelled. The model keeps
  two of its properties: distinct `Guid`s give distinct keys, and the last `-` group is not an
  `int`. A real `Guid` whose last twelve hexadecimal digits are all decimal digits and small
  enough for an `int` would parse; that case is not modelled.
- SearchIndexes.SearchIndex.KeysOfNote: the source filters on a lower-case `noteId` field and
  reads each hit as a `string`. Field names are case-sensitive and a search document does not read as a
  `string`, so the query as written most likely finds nothing or fails. The model returns what that query is meant to return: the keys
  of the documents whose `NoteId` equals the id.
- FetchNote.Lines: the UTF-8 decoding of the blob (invalid bytes throw) and byte-order-mark
  detection happen before the model's text. The model starts from decoded characters.
- FetchNote.Run: the blob client, its existence check and the two exceptions for a missing blob
  or missing content are folded into one `SourceUnavailable` outcome.
- Text.IsWhiteSpace follows `char.IsWhiteSpace` for the characters it lists. Text.EqualsIgnoreCase
  folds ASCII letters only, which suffices to compare with "Production" and "NoteContent".
- Text.ParseInt32: culture-specific signs, digits and thousands separators are not modelled;
  the invariant culture's rules are.
- ApiIndexUpserter.ChunkDocumentFields: the embedding service may reject an empty input string;
  the model embeds `""` like any other text.
- ApiFunctionsIndexUpserter.Run: `ASPNETCORE_ENVIRONMENT` is a parameter, and the drop and
  create of the index are one reset.
- The index's `Guid` keys come from a counter class, which gives freshness within one run;
  global uniqueness of `Guid.NewGuid` is not modelled.

## Findings

| source | as written | input that shows it | evidently intended | confidence | as-written member | corrected member |
|---|---|---|---|---|---|---|
| src/Api/Functions/UpsertIndexDocuments.cs:106 | The last chunk index is read back from each document's `NoteChunkOrder` with an `as string` cast before `int.Parse`. The order is stored as an `int`, so the cast gives null and `int.Parse("")` throws `FormatException`. | Any note with non-blank content whose batch is non-empty, e.g. a note that fits in one chunk: its one document stores order `0` as an `int`. | The last chunk index is the largest new order, or 0 for an empty batch, so stale chunks above it are deleted. | high, not executed | UpsertIndexDocuments.LastChunkIndexAsWrittenThrows | UpsertIndexDocuments.LastChunkIndex |
