/**
 * `Api.SourceNoteRecord`: the note record the blob-triggered upsert function deserialises,
 * copies per chunk and turns into a field map for the search index.
 */
module ApiRecord {
  import opened Wrappers
  import opened Text
  import opened Values

  datatype SourceNoteRecord = SourceNoteRecord(
    indexRecordId: Option<string>,
    noteId: Option<int64>,
    noteContent: Option<string>,
    noteChunk: Option<string>,
    noteChunkOrder: Option<int32>,
    noteChunkVector: Option<seq<Float>>,
    csn: Option<int64>,
    mrn: Option<int64>,
    noteType: Option<string>,
    noteStatus: Option<string>,
    authorId: Option<string>,
    authorFirstName: Option<string>,
    authorLastName: Option<string>,
    department: Option<string>,
    gender: Option<string>,
    birthDate: Option<Timestamp>,
    filePath: Option<string>,
    title: Option<string>,
    url: Option<string>)

  /** `new SourceNoteRecord()`: what the property initialisers give. */
  const Default: SourceNoteRecord :=
    SourceNoteRecord(
      Some(""), None, Some(""), Some(""), None, Some([]), None, None,
      Some(""), Some(""), Some(""), Some(""), Some(""), Some(""), Some(""), None,
      Some(""), Some(""), Some(""))

  /** The public properties in declaration order, as `GetType().GetProperties()` lists them. */
  const PropertyNames: seq<string> := [
    "IndexRecordId", "NoteId", "NoteContent", "NoteChunk", "NoteChunkOrder", "NoteChunkVector",
    "CSN", "MRN", "NoteType", "NoteStatus", "AuthorId", "AuthorFirstName", "AuthorLastName",
    "Department", "Gender", "BirthDate", "FilePath", "Title", "Url"]

  /** `property.GetValue(record)` for the property called `name`, boxed. */
  function PropertyValue(r: SourceNoteRecord, name: string): Value {
    match name
    case "IndexRecordId" => BoxString(r.indexRecordId)
    case "NoteId" => BoxInt64(r.noteId)
    case "NoteContent" => BoxString(r.noteContent)
    case "NoteChunk" => BoxString(r.noteChunk)
    case "NoteChunkOrder" => BoxInt32(r.noteChunkOrder)
    case "NoteChunkVector" => BoxFloats(r.noteChunkVector)
    case "CSN" => BoxInt64(r.csn)
    case "MRN" => BoxInt64(r.mrn)
    case "NoteType" => BoxString(r.noteType)
    case "NoteStatus" => BoxString(r.noteStatus)
    case "AuthorId" => BoxString(r.authorId)
    case "AuthorFirstName" => BoxString(r.authorFirstName)
    case "AuthorLastName" => BoxString(r.authorLastName)
    case "Department" => BoxString(r.department)
    case "Gender" => BoxString(r.gender)
    case "BirthDate" => BoxDate(r.birthDate)
    case "FilePath" => BoxString(r.filePath)
    case "Title" => BoxString(r.title)
    case "Url" => BoxString(r.url)
    case _ => Null
  }

  /** What the copy constructor does with each property. */
  datatype CopyRule = Copied | Overridden | NotAssigned

  /**
   * `Copied`: assigned from the original; `Overridden`: `NoteChunk` and `NoteChunkOrder`, taken
   * from the arguments when they are usable; `NotAssigned`: left at the initial value.
   */
  function RuleOf(name: string): CopyRule {
    if name in {"NoteChunk", "NoteChunkOrder"} then Overridden
    else if name in {"IndexRecordId", "Gender", "BirthDate"} then NotAssigned
    else Copied
  }

  /**
   * `new SourceNoteRecord(original, chunk, chunkIndex)`: copies the listed properties, takes
   * `chunk` only when it is not null or white space and `chunkIndex` only when it is not null,
   * and leaves `IndexRecordId`, `Gender` and `BirthDate` at their defaults.
   */
  function Copy(original: SourceNoteRecord, chunk: Option<string>, chunkIndex: Option<int32>): (r: SourceNoteRecord)
    ensures forall name | name in PropertyNames && RuleOf(name) == Copied ::
      PropertyValue(r, name) == PropertyValue(original, name)
    ensures forall name | name in PropertyNames && RuleOf(name) == NotAssigned ::
      PropertyValue(r, name) == PropertyValue(Default, name)
    ensures r.noteChunk == if IsNullOrWhiteSpace(chunk) then original.noteChunk else chunk
    ensures r.noteChunkOrder == if chunkIndex.None? then original.noteChunkOrder else chunkIndex
  {
    Default.(
      noteId := original.noteId,
      noteContent := original.noteContent,
      noteChunk := if IsNullOrWhiteSpace(chunk) then original.noteChunk else chunk,
      noteChunkOrder := if chunkIndex.None? then original.noteChunkOrder else chunkIndex,
      noteChunkVector := original.noteChunkVector,
      csn := original.csn,
      mrn := original.mrn,
      noteType := original.noteType,
      noteStatus := original.noteStatus,
      authorId := original.authorId,
      authorFirstName := original.authorFirstName,
      authorLastName := original.authorLastName,
      department := original.department,
      filePath := original.filePath,
      title := original.title,
      url := original.url)
  }

  /** A copy loses the original's `Gender`, `BirthDate` and `IndexRecordId`. */
  lemma CopyDropsDemographics(original: SourceNoteRecord, chunk: Option<string>, chunkIndex: Option<int32>)
    ensures var r := Copy(original, chunk, chunkIndex);
      r.gender == Some("") && r.birthDate.None? && r.indexRecordId == Some("")
  {
    var r := Copy(original, chunk, chunkIndex);
    assert PropertyValue(r, "Gender") == Str("");
    assert PropertyValue(r, "BirthDate") == Null;
    assert PropertyValue(r, "IndexRecordId") == Str("");
  }

  lemma PropertyNamesDistinct()
    ensures Distinct(PropertyNames)
  {
    assert forall i, j | 0 <= i < j < |PropertyNames| :: PropertyNames[i] != PropertyNames[j];
  }

  /** Among the property names, only `NoteContent` equals "NoteContent" ignoring case. */
  lemma OnlyNoteContentMatches(name: string)
    requires name in PropertyNames
    ensures EqualsIgnoreCase(name, "NoteContent") <==> name == "NoteContent"
  {
  }

  /** The properties that reach the index: all but `NoteContent`. */
  const IndexedProperties: set<string> := {
    "IndexRecordId", "NoteId", "NoteChunk", "NoteChunkOrder", "NoteChunkVector",
    "CSN", "MRN", "NoteType", "NoteStatus", "AuthorId", "AuthorFirstName", "AuthorLastName",
    "Department", "Gender", "BirthDate", "FilePath", "Title", "Url"}

  /** The indexed properties are the property names but `NoteContent`. */
  lemma IndexedPropertiesAreAllButContent()
    ensures IndexedProperties == set name | name in PropertyNames && name != "NoteContent"
  {
  }

  /** The field map `ToDictionaryForIndexing` builds. */
  function IndexFields(r: SourceNoteRecord): (d: Document)
    ensures d.Keys == IndexedProperties
    ensures forall name | name in d :: d[name] == PropertyValue(r, name)
  {
    map name | name in IndexedProperties :: PropertyValue(r, name)
  }

  /** A document with the indexed properties as keys, each holding its value, is the field map. */
  lemma FieldsDetermineDocument(r: SourceNoteRecord, d: Document)
    requires d.Keys == IndexedProperties
    requires forall name | name in d :: d[name] == PropertyValue(r, name)
    ensures d == IndexFields(r)
  {
    var fields := IndexFields(r);
    assert d.Keys == fields.Keys;
  }

  /**
   * `ToDictionaryForIndexing`: one entry per property except `NoteContent` (compared ignoring
   * case), each holding that property's value.
   */
  method ToDictionaryForIndexing(r: SourceNoteRecord) returns (d: Document)
    ensures d.Keys == IndexedProperties
    ensures forall name | name in d :: d[name] == PropertyValue(r, name)
    ensures d == IndexFields(r)
  {
    PropertyNamesDistinct();
    d := CollectProperties(PropertyNames, name => PropertyValue(r, name), name => EqualsIgnoreCase(name, "NoteContent"));
    assert d.Keys == set name | name in PropertyNames && name != "NoteContent" by {
      forall name | name in PropertyNames {
        OnlyNoteContentMatches(name);
      }
    }
    IndexedPropertiesAreAllButContent();
    FieldsDetermineDocument(r, d);
  }
}
