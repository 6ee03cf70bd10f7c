/**
 * `AzureSearchService.QueryDocumentsAsync` of the chat server: the argument check, then the
 * shaping of every search hit into a `SupportingContentRecord` citation. The search itself (query
 * text, vector query, semantic configuration, top 5) is the service's business; its hits arrive
 * here as the sequence of their documents, in the order the service streams them.
 */
module AzureSearchService {
  import opened Wrappers
  import opened Text
  import opened Values
  import opened Sequences

  /** The sortable and retrievable fields a citation carries as additional content. */
  const IndexContentFields: seq<string> := [
    "CSN", "NoteType", "NoteStatus", "AuthorId", "AuthorFirstName", "AuthorLastName",
    "Department", "Gender", "BirthDate", "NoteId", "PatientFirstName", "PatientLastName", "MRN"]

  /**
   * A citation. `additionalContent` is the field map that the source hands to
   * `JsonSerializer.Serialize`; the serialised text itself is not modelled.
   */
  datatype SupportingContentRecord = SupportingContentRecord(
    title: string,
    content: string,
    url: string,
    filepath: string,
    chunkId: string,
    additionalContent: Document)

  /** The response: the citations and the intent list, whose one entry may be a null query. */
  datatype ToolContentResponse = ToolContentResponse(
    citations: seq<SupportingContentRecord>,
    intent: seq<Option<string>>)

  datatype QueryOutcome =
    | ArgumentError                      // neither a query nor an embedding was supplied
    | InvalidCast                        // a hit's `NoteChunk` is neither null nor a string
    | Response(response: ToolContentResponse)

  /**
   * `(string)value` on `NoteChunk`: `Some(None)` for null, `Some(Some(s))` for a string, and
   * `None` for any other runtime type, which raises `InvalidCastException`. The cast never raises
   * `ArgumentNullException`, so the surrounding catch never fires.
   */
  function CastContent(doc: Document): (r: Option<Option<string>>)
    ensures r.None? <==> "NoteChunk" in doc && !doc["NoteChunk"].Null? && !doc["NoteChunk"].Str?
    ensures r == Some(None) <==> Lookup(doc, "NoteChunk") == Null
  {
    match Lookup(doc, "NoteChunk")
    case Null => Some(None)
    case Str(s) => Some(Some(s))
    case _ => None
  }

  /** The entries of the hit whose key is on the allow-list. */
  function AdditionalContent(doc: Document): (d: Document)
    ensures d.Keys == doc.Keys * (set k | k in IndexContentFields)
    ensures forall k | k in d :: d[k] == doc[k]
  {
    map k | k in doc && k in IndexContentFields :: doc[k]
  }

  /** `content.Replace('\r', ' ').Replace('\n', ' ')`. */
  function Flatten(s: string): string {
    ReplaceChar(ReplaceChar(s, '\r', ' '), '\n', ' ')
  }

  /** Flattening keeps the length, turns exactly the line breaks into spaces and leaves no line break. */
  lemma FlattenReplacesLineBreaks(s: string)
    ensures |Flatten(s)| == |s|
    ensures forall i | 0 <= i < |s| :: Flatten(s)[i] == (if s[i] == '\r' || s[i] == '\n' then ' ' else s[i])
    ensures '\r' !in Flatten(s) && '\n' !in Flatten(s)
  {
    var f := Flatten(s);
    forall c | c in f ensures c != '\r' && c != '\n' {
      var i :| 0 <= i < |f| && f[i] == c;
    }
  }

  /** A hit passes the type test when its title, file path, url and chunk are strings and its order an `int`. */
  predicate IsCitable(doc: Document) {
    && Lookup(doc, "Title").Str?
    && Lookup(doc, "FilePath").Str?
    && Lookup(doc, "Url").Str?
    && Lookup(doc, "NoteChunkOrder").Int32?
    && Lookup(doc, "NoteChunk").Str?
  }

  /** The citation of a hit whose chunk cast succeeded, or `None` when the hit fails the type test. */
  function Citation(doc: Document): Option<SupportingContentRecord> {
    if IsCitable(doc) then
      Some(SupportingContentRecord(
        Lookup(doc, "Title").s,
        Flatten(Lookup(doc, "NoteChunk").s),
        Lookup(doc, "Url").s,
        Lookup(doc, "FilePath").s,
        IntToString(Lookup(doc, "NoteChunkOrder").i),
        AdditionalContent(doc)))
    else None
  }

  /**
   * What a citation holds: the title, url and file path of the hit as they are; the chunk text
   * with line breaks turned into spaces; a chunk id that `int.Parse` reads back as the chunk
   * order; and exactly the allow-listed entries of the hit.
   */
  lemma CitationFields(doc: Document)
    requires IsCitable(doc)
    ensures var c := Citation(doc).value;
      && c.title == doc["Title"].s && c.url == doc["Url"].s && c.filepath == doc["FilePath"].s
      && |c.content| == |doc["NoteChunk"].s|
      && (forall i | 0 <= i < |c.content| ::
            c.content[i] == (if doc["NoteChunk"].s[i] in "\r\n" then ' ' else doc["NoteChunk"].s[i]))
      && '\r' !in c.content && '\n' !in c.content
      && ParseInt32(c.chunkId) == Some(doc["NoteChunkOrder"].i)
      && c.additionalContent.Keys == doc.Keys * (set k | k in IndexContentFields)
      && (forall k | k in c.additionalContent :: c.additionalContent[k] == doc[k])
  {
    FlattenReplacesLineBreaks(doc["NoteChunk"].s);
    ParseInt32RoundTrip(doc["NoteChunkOrder"].i);
  }

  /** Some hit's chunk cannot be cast to a string. */
  predicate CastFails(hits: seq<Document>) {
    exists i | 0 <= i < |hits| :: CastContent(hits[i]).None?
  }

  /** The loop over the hits: `None` when a chunk cast raises, else the citable hits' citations in hit order. */
  function Citations(hits: seq<Document>): Option<seq<SupportingContentRecord>> {
    if CastFails(hits) then None else Some(FilterMap(hits, Citation))
  }

  /**
   * The citations follow the hits: each citable hit gives one citation, the others none, and
   * the citations come in the order of their hits.
   */
  lemma CitationsFollowHits(hits: seq<Document>) returns (idx: seq<nat>)
    requires Citations(hits).Some?
    ensures |idx| == |Citations(hits).value| <= |hits|
    ensures forall k | 0 <= k < |idx| :: idx[k] < |hits| && Citation(hits[idx[k]]) == Some(Citations(hits).value[k])
    ensures forall k, l | 0 <= k < l < |idx| :: idx[k] < idx[l]
    ensures forall i | 0 <= i < |hits| && IsCitable(hits[i]) :: i in idx
  {
    idx := FilterMapFollows(hits, Citation);
  }

  /**
   * `QueryDocumentsAsync(query, embedding)` over the hits the search returns: `ArgumentException`
   * when both arguments are null, then the `await foreach` appending one citation per citable hit.
   */
  method QueryDocuments(query: Option<string>, embedding: Option<seq<Float>>, hits: seq<Document>)
    returns (outcome: QueryOutcome)
    ensures outcome.ArgumentError? <==> query.None? && embedding.None?
    ensures outcome.InvalidCast? <==> (query.Some? || embedding.Some?) && CastFails(hits)
    ensures outcome.Response? ==>
      Citations(hits) == Some(outcome.response.citations) && outcome.response.intent == [query]
  {
    if query.None? && embedding.None? {
      return ArgumentError;
    }
    var citations: seq<SupportingContentRecord> := [];
    for i := 0 to |hits|
      invariant forall j | 0 <= j < i :: CastContent(hits[j]).Some?
      invariant citations == FilterMap(hits[..i], Citation)
    {
      assert hits[..i + 1][..i] == hits[..i];
      var doc := hits[i];
      if CastContent(doc).None? {
        return InvalidCast;
      }
      var citation := Citation(doc);
      if citation.Some? {
        citations := citations + [citation.value];
      } else {
        assert citations + [] == citations;
      }
    }
    assert hits[..|hits|] == hits;
    outcome := Response(ToolContentResponse(citations, [query]));
  }
}
