/**
 * `IndexOrchestration.Models.SourceNoteRecord`: the record of the orchestration loader. Its
 * `NoteId` is an `int`, its `IndexRecordId` a fresh `Guid`, and it has neither the HTML/text
 * variants nor the file metadata.
 */
module OrchestrationRecord {
  import opened Wrappers
  import opened Text
  import opened Values

  datatype SourceNoteRecord = SourceNoteRecord(
    indexRecordId: Option<Guid>,
    noteId: Option<int32>,
    noteContent: Option<string>,
    noteChunk: Option<string>,
    noteChunkOrder: Option<int32>,
    noteChunkVector: Option<seq<Float>>,
    csn: Option<int64>,
    mrn: Option<int64>,
    noteType: Option<string>,
    noteStatus: Option<string>,
    authorId: Option<string>,
    authorFirstName: Option<string>,
    authorLastName: Option<string>,
    department: Option<string>,
    gender: Option<string>,
    birthDate: Option<Timestamp>)

  /** `new SourceNoteRecord()`, where `id` is the `Guid.NewGuid()` of the `IndexRecordId` initialiser. */
  function New(id: Guid): (r: SourceNoteRecord)
    ensures r.indexRecordId == Some(id)
    ensures r.noteId.None? && r.noteChunkOrder.None? && r.birthDate.None?
    ensures r.noteChunkVector == Some([])
    ensures r.noteContent == r.noteChunk == r.gender == Some("")
    ensures r.csn.None? && r.mrn.None?
    ensures r.noteType == r.noteStatus == r.authorId == Some("")
    ensures r.authorFirstName == r.authorLastName == r.department == Some("")
  {
    SourceNoteRecord(
      Some(id), None, Some(""), Some(""), None, Some([]), None, None,
      Some(""), Some(""), Some(""), Some(""), Some(""), Some(""), Some(""), None)
  }

  /** The public properties in declaration order. */
  const PropertyNames: seq<string> := [
    "IndexRecordId", "NoteId", "NoteContent", "NoteChunk", "NoteChunkOrder", "NoteChunkVector",
    "CSN", "MRN", "NoteType", "NoteStatus", "AuthorId", "AuthorFirstName", "AuthorLastName",
    "Department", "Gender", "BirthDate"]

  /** `property.GetValue(record)` for the property called `name`, boxed; `NoteId` boxes as an `int`. */
  function PropertyValue(r: SourceNoteRecord, name: string): Value {
    match name
    case "IndexRecordId" => BoxGuid(r.indexRecordId)
    case "NoteId" => BoxInt32(r.noteId)
    case "NoteContent" => BoxString(r.noteContent)
    case "NoteChunk" => BoxString(r.noteChunk)
    case "NoteChunkOrder" => BoxInt32(r.noteChunkOrder)
    case "NoteChunkVector" => BoxFloats(r.noteChunkVector)
    case "CSN" => BoxInt64(r.csn)
    case "MRN" => BoxInt64(r.mrn)
    case "NoteType" => BoxString(r.noteType)
    case "NoteStatus" => BoxString(r.noteStatus)
    case "AuthorId" => BoxString(r.authorId)
    case "AuthorFirstName" => BoxString(r.authorFirstName)
    case "AuthorLastName" => BoxString(r.authorLastName)
    case "Department" => BoxString(r.department)
    case "Gender" => BoxString(r.gender)
    case "BirthDate" => BoxDate(r.birthDate)
    case _ => Null
  }

  /** What the copy constructor does with each property. */
  datatype CopyRule = Copied | Overridden | NotAssigned

  function RuleOf(name: string): CopyRule {
    if name in {"NoteChunk", "NoteChunkOrder"} then Overridden
    else if name in {"IndexRecordId", "Gender", "BirthDate"} then NotAssigned
    else Copied
  }

  /**
   * `new SourceNoteRecord(original, chunk, chunkIndex)` with `freshId` from its initialiser:
   * the same override rules as the other records, nothing else assigned.
   */
  function Copy(original: SourceNoteRecord, chunk: Option<string>, chunkIndex: Option<int32>, freshId: Guid): (r: SourceNoteRecord)
    ensures forall name | name in PropertyNames && RuleOf(name) == Copied ::
      PropertyValue(r, name) == PropertyValue(original, name)
    ensures forall name | name in PropertyNames && RuleOf(name) == NotAssigned ::
      PropertyValue(r, name) == PropertyValue(New(freshId), name)
    ensures r.noteChunk == if IsNullOrWhiteSpace(chunk) then original.noteChunk else chunk
    ensures r.noteChunkOrder == if chunkIndex.None? then original.noteChunkOrder else chunkIndex
  {
    New(freshId).(
      noteId := original.noteId,
      noteContent := original.noteContent,
      noteChunk := if IsNullOrWhiteSpace(chunk) then original.noteChunk else chunk,
      noteChunkOrder := if chunkIndex.None? then original.noteChunkOrder else chunkIndex,
      noteChunkVector := original.noteChunkVector,
      csn := original.csn,
      mrn := original.mrn,
      noteType := original.noteType,
      noteStatus := original.noteStatus,
      authorId := original.authorId,
      authorFirstName := original.authorFirstName,
      authorLastName := original.authorLastName,
      department := original.department)
  }

  /** A copy carries the fresh `Guid`, not the original's, and loses `Gender` and `BirthDate`. */
  lemma CopyTakesFreshId(original: SourceNoteRecord, chunk: Option<string>, chunkIndex: Option<int32>, freshId: Guid)
    ensures var r := Copy(original, chunk, chunkIndex, freshId);
      r.indexRecordId == Some(freshId) && r.gender == Some("") && r.birthDate.None?
  {
    var r := Copy(original, chunk, chunkIndex, freshId);
    assert PropertyValue(r, "IndexRecordId") == GuidValue(freshId);
    assert PropertyValue(r, "Gender") == Str("");
    assert PropertyValue(r, "BirthDate") == Null;
  }

  lemma PropertyNamesDistinct()
    ensures Distinct(PropertyNames)
  {
    assert forall i, j | 0 <= i < j < |PropertyNames| :: PropertyNames[i] != PropertyNames[j];
  }

  /** The properties `ToDictionary` writes. */
  const DictionaryProperties: set<string> := {
    "IndexRecordId", "NoteId", "NoteChunk", "NoteChunkOrder", "NoteChunkVector", "CSN", "MRN",
    "NoteType", "NoteStatus", "AuthorId", "AuthorFirstName", "AuthorLastName", "Department",
    "Gender", "BirthDate"}

  /** They are the property names but `NoteContent`. */
  lemma DictionaryPropertiesAreAllButContent()
    ensures DictionaryProperties == set name | name in PropertyNames && name != "NoteContent"
  {
  }

  /** The field map `ToDictionary` builds. */
  function Fields(r: SourceNoteRecord): (d: Document)
    ensures d.Keys == DictionaryProperties
    ensures forall name | name in d :: d[name] == PropertyValue(r, name)
  {
    map name | name in DictionaryProperties :: PropertyValue(r, name)
  }

  /** A document with the dictionary properties as keys, each holding its value, is the field map. */
  lemma FieldsDetermineDocument(r: SourceNoteRecord, d: Document)
    requires d.Keys == DictionaryProperties
    requires forall name | name in d :: d[name] == PropertyValue(r, name)
    ensures d == Fields(r)
  {
    assert d.Keys == Fields(r).Keys;
  }

  /** `ToDictionary`: every property but `NoteContent`, each holding its value. */
  method ToDictionary(r: SourceNoteRecord) returns (d: Document)
    ensures d == Fields(r)
  {
    PropertyNamesDistinct();
    d := CollectProperties(PropertyNames, name => PropertyValue(r, name), name => name == "NoteContent");
    DictionaryPropertiesAreAllButContent();
    FieldsDetermineDocument(r, d);
  }
}
