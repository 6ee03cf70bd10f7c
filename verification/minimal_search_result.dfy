/**
 * `MinimalSearchResult` of the chat server: the slim view of a search hit that keeps the score
 * and the note's metadata, each field taken from the hit only when it holds a value of the
 * field's own runtime type. The chunk text and its vector are not part of it.
 */
module MinimalSearchResults {
  import opened Wrappers
  import opened Text
  import opened Values

  /** A `double`, carried as its IEEE-754 bit pattern and never computed with. */
  datatype Double = Double(bits: bv64)

  /** The keys the constructor looks up, one per projected property. */
  const ProjectedFields: set<string> := {
    "IndexRecordId", "NoteId", "CSN", "MRN", "NoteType", "NoteStatus", "AuthorId",
    "PatientFirstName", "PatientLastName", "AuthorFirstName", "AuthorLastName", "Department",
    "Gender", "BirthDate"}

  /** The values of the properties of a `MinimalSearchResult`. */
  datatype Projection = Projection(
    score: Double,
    indexRecordId: string,
    noteId: Option<int64>,
    csn: Option<int64>,
    mrn: Option<int64>,
    noteType: Option<string>,
    noteStatus: Option<string>,
    authorId: Option<string>,
    patientFirstName: Option<string>,
    patientLastName: Option<string>,
    authorFirstName: Option<string>,
    authorLastName: Option<string>,
    department: Option<string>,
    gender: Option<string>,
    birthDate: Option<Timestamp>)

  /** The property initialisers: a zero score, an empty `IndexRecordId` and null everywhere else. */
  const Default: Projection :=
    Projection(Double(0), "", None, None, None, None, None, None, None, None, None, None, None, None, None)

  /** `TryGetValue(key, out var o)` then `o is string s`. */
  function StringField(doc: Document, key: string): Option<string> {
    match Lookup(doc, key)
    case Str(s) => Some(s)
    case _ => None
  }

  /** `TryGetValue(key, out var o)` then `o is long l`: an `int` does not match. */
  function LongField(doc: Document, key: string): Option<int64> {
    match Lookup(doc, key)
    case Int64(l) => Some(l)
    case _ => None
  }

  /** `TryGetValue(key, out var o)` then `o is DateTimeOffset d`. */
  function DateField(doc: Document, key: string): Option<Timestamp> {
    match Lookup(doc, key)
    case Date(t) => Some(t)
    case _ => None
  }

  /** What the `(double, SearchDocument)` constructor leaves in the properties. */
  function Project(score: Double, doc: Document): Projection {
    Projection(
      score,
      StringField(doc, "IndexRecordId").GetOr(""),
      LongField(doc, "NoteId"),
      LongField(doc, "CSN"),
      LongField(doc, "MRN"),
      StringField(doc, "NoteType"),
      StringField(doc, "NoteStatus"),
      StringField(doc, "AuthorId"),
      StringField(doc, "PatientFirstName"),
      StringField(doc, "PatientLastName"),
      StringField(doc, "AuthorFirstName"),
      StringField(doc, "AuthorLastName"),
      StringField(doc, "Department"),
      StringField(doc, "Gender"),
      DateField(doc, "BirthDate"))
  }

  /** A field is taken exactly when its key is present with a value of the expected runtime type. */
  lemma TypedFields(doc: Document, key: string)
    ensures StringField(doc, key).Some? <==> key in doc && doc[key].Str?
    ensures StringField(doc, key).Some? ==> StringField(doc, key).value == doc[key].s
    ensures LongField(doc, key).Some? <==> key in doc && doc[key].Int64?
    ensures LongField(doc, key).Some? ==> LongField(doc, key).value == doc[key].l
    ensures DateField(doc, key).Some? <==> key in doc && doc[key].Date?
    ensures DateField(doc, key).Some? ==> DateField(doc, key).value == doc[key].t
  {
  }

  /**
   * The score is the one supplied, and a document without usable fields leaves every other
   * property at its initial value: an empty `IndexRecordId` and null elsewhere.
   */
  lemma ProjectOfUntypedDocument(score: Double, doc: Document)
    requires forall k | k in doc && k in ProjectedFields :: doc[k].Null? || doc[k].Vec? || doc[k].GuidValue?
    ensures Project(score, doc) == Default.(score := score)
  {
  }

  /** A `NoteId`, `CSN` or `MRN` stored as an `int` rather than a `long` leaves that property null. */
  lemma Int32IdsAreDropped(score: Double, doc: Document)
    ensures Lookup(doc, "NoteId").Int32? ==> Project(score, doc).noteId == None
    ensures Lookup(doc, "CSN").Int32? ==> Project(score, doc).csn == None
    ensures Lookup(doc, "MRN").Int32? ==> Project(score, doc).mrn == None
  {
  }

  /**
   * Only the projected keys are read: two hits that agree on them give the same result, so the
   * chunk text, its order and its vector never reach a `MinimalSearchResult`.
   */
  lemma ProjectReadsOnlyItsFields(score: Double, a: Document, b: Document)
    requires forall k | k in ProjectedFields :: Lookup(a, k) == Lookup(b, k)
    ensures Project(score, a) == Project(score, b)
  {
    assert forall k | k in ProjectedFields ::
      StringField(a, k) == StringField(b, k) && LongField(a, k) == LongField(b, k) && DateField(a, k) == DateField(b, k);
  }

  /** Storing, replacing or removing a key that is not projected does not change the result. */
  lemma ProjectIgnoresOtherKeys(score: Double, doc: Document, key: string, v: Value)
    requires key !in ProjectedFields
    ensures Project(score, doc[key := v]) == Project(score, doc)
    ensures Project(score, doc - {key}) == Project(score, doc)
  {
    ProjectReadsOnlyItsFields(score, doc, doc[key := v]);
    ProjectReadsOnlyItsFields(score, doc, doc - {key});
  }

  /** The chunk text and the chunk vector are not among the projected keys. */
  lemma ChunkIsNotProjected()
    ensures "NoteChunk" !in ProjectedFields && "NoteChunkVector" !in ProjectedFields
  {
  }

  /** `TryGetValue(key, out var o)` then `if (o is string s) property = s;`: the new value of the property. */
  method TakeString(doc: Document, key: string, current: Option<string>) returns (r: Option<string>)
    ensures r == if StringField(doc, key).Some? then StringField(doc, key) else current
  {
    var o := Lookup(doc, key);
    r := current;
    if o.Str? {
      r := Some(o.s);
    }
  }

  /** The same for a `long` property. */
  method TakeLong(doc: Document, key: string, current: Option<int64>) returns (r: Option<int64>)
    ensures r == if LongField(doc, key).Some? then LongField(doc, key) else current
  {
    var o := Lookup(doc, key);
    r := current;
    if o.Int64? {
      r := Some(o.l);
    }
  }

  /** The same for a `DateTimeOffset` property. */
  method TakeDate(doc: Document, key: string, current: Option<Timestamp>) returns (r: Option<Timestamp>)
    ensures r == if DateField(doc, key).Some? then DateField(doc, key) else current
  {
    var o := Lookup(doc, key);
    r := current;
    if o.Date? {
      r := Some(o.t);
    }
  }

  class MinimalSearchResult {
    var score: Double
    var indexRecordId: string
    var noteId: Option<int64>
    var csn: Option<int64>
    var mrn: Option<int64>
    var noteType: Option<string>
    var noteStatus: Option<string>
    var authorId: Option<string>
    var patientFirstName: Option<string>
    var patientLastName: Option<string>
    var authorFirstName: Option<string>
    var authorLastName: Option<string>
    var department: Option<string>
    var gender: Option<string>
    var birthDate: Option<Timestamp>

    /** The current property values. */
    function View(): Projection
      reads this
    {
      Projection(score, indexRecordId, noteId, csn, mrn, noteType, noteStatus, authorId,
        patientFirstName, patientLastName, authorFirstName, authorLastName, department, gender, birthDate)
    }

    /** `new MinimalSearchResult()`. */
    constructor Empty()
      ensures View() == Default
    {
      score := Double(0);
      indexRecordId := "";
      noteId, csn, mrn := None, None, None;
      noteType, noteStatus, authorId := None, None, None;
      patientFirstName, patientLastName, authorFirstName, authorLastName := None, None, None, None;
      department, gender, birthDate := None, None, None;
    }

    /**
     * `new MinimalSearchResult(relevancyScore, fullSearchResult)`: the score, then one property
     * after another, each replaced only when the hit holds a value of the property's type.
     */
    constructor (relevancyScore: Double, fullSearchResult: Document)
      ensures View() == Project(relevancyScore, fullSearchResult)
    {
      var doc := fullSearchResult;
      var p := Default.(score := relevancyScore);
      var id := TakeString(doc, "IndexRecordId", Some(p.indexRecordId));
      p := p.(indexRecordId := id.value);
      var noteIdValue := TakeLong(doc, "NoteId", p.noteId);
      p := p.(noteId := noteIdValue);
      var csnValue := TakeLong(doc, "CSN", p.csn);
      p := p.(csn := csnValue);
      var mrnValue := TakeLong(doc, "MRN", p.mrn);
      p := p.(mrn := mrnValue);
      var noteTypeValue := TakeString(doc, "NoteType", p.noteType);
      p := p.(noteType := noteTypeValue);
      var noteStatusValue := TakeString(doc, "NoteStatus", p.noteStatus);
      p := p.(noteStatus := noteStatusValue);
      var authorIdValue := TakeString(doc, "AuthorId", p.authorId);
      p := p.(authorId := authorIdValue);
      var patientFirstNameValue := TakeString(doc, "PatientFirstName", p.patientFirstName);
      p := p.(patientFirstName := patientFirstNameValue);
      var patientLastNameValue := TakeString(doc, "PatientLastName", p.patientLastName);
      p := p.(patientLastName := patientLastNameValue);
      var authorFirstNameValue := TakeString(doc, "AuthorFirstName", p.authorFirstName);
      p := p.(authorFirstName := authorFirstNameValue);
      var authorLastNameValue := TakeString(doc, "AuthorLastName", p.authorLastName);
      p := p.(authorLastName := authorLastNameValue);
      var departmentValue := TakeString(doc, "Department", p.department);
      p := p.(department := departmentValue);
      var genderValue := TakeString(doc, "Gender", p.gender);
      p := p.(gender := genderValue);
      var birthDateValue := TakeDate(doc, "BirthDate", p.birthDate);
      p := p.(birthDate := birthDateValue);
      score, indexRecordId, noteId, csn, mrn := p.score, p.indexRecordId, p.noteId, p.csn, p.mrn;
      noteType, noteStatus, authorId := p.noteType, p.noteStatus, p.authorId;
      patientFirstName, patientLastName := p.patientFirstName, p.patientLastName;
      authorFirstName, authorLastName := p.authorFirstName, p.authorLastName;
      department, gender, birthDate := p.department, p.gender, p.birthDate;
    }
  }
}
