/**
 * The `FetchNote` HTTP function of the Api project: it parses the `noteId` route value, reads the
 * notes blob as newline-delimited JSON, one `Api.SourceNoteRecord` per line, and answers with the
 * first note of that id.
 */
module FetchNote {
  import opened Wrappers
  import opened Text
  import opened Values
  import opened Sequences
  import ApiRecord

  type Record = ApiRecord.SourceNoteRecord

  predicate IsLineBreak(c: char) {
    c == '\r' || c == '\n'
  }

  /** The length of the first line of `s`: the index of its first line break, or `|s|`. */
  function LineEnd(s: string): (e: nat)
    ensures e <= |s|
    ensures forall i | 0 <= i < e :: !IsLineBreak(s[i])
    ensures e < |s| ==> IsLineBreak(s[e])
  {
    if s == [] || IsLineBreak(s[0]) then 0 else 1 + LineEnd(s[1..])
  }

  /** Where `ReadLine` leaves the reader: after the line and its break, `\r\n` counting as one break. */
  function NextLine(s: string): (n: nat)
    requires s != []
    ensures LineEnd(s) <= n <= |s| && 0 < n
  {
    var e := LineEnd(s);
    if e == |s| then |s|
    else if s[e] == '\r' && e + 1 < |s| && s[e + 1] == '\n' then e + 2
    else e + 1
  }

  /** The lines `StreamReader.ReadLine` returns while `Peek` has not reached the end of `s`. */
  function Lines(s: string): seq<string>
    decreases |s|
  {
    if s == [] then [] else [s[..LineEnd(s)]] + Lines(s[NextLine(s)..])
  }

  /** The text of lines each ended by `\n`, as an NDJSON file is written. */
  function Joined(lines: seq<string>): string {
    if lines == [] then [] else lines[0] + "\n" + Joined(lines[1..])
  }

  /** The first line of a line, a break and the rest is that line, and the reader moves past the break. */
  lemma LineOfPrefix(line: string, rest: string)
    requires forall i | 0 <= i < |line| :: !IsLineBreak(line[i])
    ensures LineEnd(line + "\n" + rest) == |line|
    ensures NextLine(line + "\n" + rest) == |line| + 1
  {
    var s := line + "\n" + rest;
    if line != [] {
      assert s[1..] == line[1..] + "\n" + rest;
      LineOfPrefix(line[1..], rest);
    }
  }

  /** Reading back lines without line breaks, each written with a trailing `\n`, gives the same lines. */
  lemma {:induction false} LinesOfJoined(lines: seq<string>)
    requires forall k | 0 <= k < |lines| :: forall i | 0 <= i < |lines[k]| :: !IsLineBreak(lines[k][i])
    ensures Lines(Joined(lines)) == lines
  {
    if lines != [] {
      var s := Joined(lines);
      var rest := Joined(lines[1..]);
      assert s == lines[0] + "\n" + rest;
      LineOfPrefix(lines[0], rest);
      assert s[..|lines[0]|] == lines[0];
      assert s[|lines[0]| + 1..] == rest;
      LinesOfJoined(lines[1..]);
    }
  }

  /** No line holds a line break. */
  lemma {:induction false} LinesHaveNoBreaks(s: string)
    ensures forall k | 0 <= k < |Lines(s)| :: forall i | 0 <= i < |Lines(s)[k]| :: !IsLineBreak(Lines(s)[k][i])
  {
    if s != [] {
      LinesHaveNoBreaks(s[NextLine(s)..]);
    }
  }

  /**
   * What one line contributes: nothing when it is white space only or the JSON literal `null`,
   * the record otherwise.
   */
  function LineRecord(decode: string -> Deserialized<Record>, line: string): Option<Record> {
    if IsNullOrWhiteSpace(Some(line)) then None
    else match decode(line)
      case Parsed(r) => Some(r)
      case _ => None
  }

  function LineReader(decode: string -> Deserialized<Record>): string -> Option<Record> {
    line => LineRecord(decode, line)
  }

  /** A line that is not blank and that the serializer rejects: the exception leaves the function. */
  predicate LineThrows(decode: string -> Deserialized<Record>, line: string) {
    !IsNullOrWhiteSpace(Some(line)) && decode(line).Throws?
  }

  /** The records of the lines, in line order, or `None` when a line cannot be deserialised. */
  function Notes(decode: string -> Deserialized<Record>, lines: seq<string>): Option<seq<Record>> {
    if exists i | 0 <= i < |lines| :: LineThrows(decode, lines[i]) then None
    else Some(FilterMap(lines, LineReader(decode)))
  }

  /**
   * Without a failing line, the records are those of the lines that are neither blank nor `null`,
   * in line order, one per such line: `idx` lists those lines' positions, strictly increasing.
   */
  lemma NotesFollowLines(decode: string -> Deserialized<Record>, lines: seq<string>) returns (idx: seq<nat>)
    requires Notes(decode, lines).Some?
    ensures |idx| == |Notes(decode, lines).value| <= |lines|
    ensures forall k | 0 <= k < |idx| ::
      && idx[k] < |lines|
      && !IsNullOrWhiteSpace(Some(lines[idx[k]]))
      && decode(lines[idx[k]]) == Parsed(Notes(decode, lines).value[k])
    ensures forall k, l | 0 <= k < l < |idx| :: idx[k] < idx[l]
    ensures forall i | 0 <= i < |lines| && !IsNullOrWhiteSpace(Some(lines[i])) && decode(lines[i]).Parsed? :: i in idx
  {
    idx := FilterMapFollows(lines, LineReader(decode));
    forall i | 0 <= i < |lines| && !IsNullOrWhiteSpace(Some(lines[i])) && decode(lines[i]).Parsed?
      ensures LineReader(decode)(lines[i]).Some?
    {
    }
  }

  /**
   * `DeserializeNdJson`: read line after line until the end, skip blank lines and lines that
   * deserialise to `null`, and collect the others in order.
   */
  method DeserializeNdJson(text: string, decode: string -> Deserialized<Record>) returns (notes: Option<seq<Record>>)
    ensures notes == Notes(decode, Lines(text))
  {
    var results: seq<Record> := [];
    ghost var seen: seq<string> := [];
    var pos := 0;
    while pos < |text|
      invariant pos <= |text|
      invariant Lines(text) == seen + Lines(text[pos..])
      invariant forall i | 0 <= i < |seen| :: !LineThrows(decode, seen[i])
      invariant results == FilterMap(seen, LineReader(decode))
      decreases |text| - pos
    {
      var rest := text[pos..];
      var next := NextLine(rest);
      var line := rest[..LineEnd(rest)];
      ghost var tail := Lines(rest[next..]);
      assert Lines(rest) == [line] + tail;
      assert text[pos + next..] == rest[next..];
      pos := pos + next;
      ghost var before := seen;
      seen := seen + [line];
      assert before + ([line] + tail) == seen + tail;
      assert seen[..|seen| - 1] == before;
      if !IsNullOrWhiteSpace(Some(line)) {
        var obj := decode(line);
        if obj.Throws? {
          assert LineThrows(decode, Lines(text)[|seen| - 1]);
          return None;
        }
        if obj.Parsed? {
          results := results + [obj.value];
        }
      }
    }
    assert text[pos..] == [];
    assert seen == Lines(text);
    notes := Some(results);
  }

  /** `notes.ToList().Find(note => note.NoteId == noteId)`: the first note of that id. */
  function Find(notes: seq<Record>, noteId: int32): Option<Record>
    decreases |notes|
  {
    if notes == [] then None
    else if notes[0].noteId == Some(noteId as int64) then Some(notes[0])
    else Find(notes[1..], noteId)
  }

  /** `Find` gives nothing exactly when no note has the id, and otherwise the first note that has it. */
  lemma {:induction false} FindIsFirst(notes: seq<Record>, noteId: int32) returns (i: nat)
    ensures Find(notes, noteId).None? <==> forall j | 0 <= j < |notes| :: notes[j].noteId != Some(noteId as int64)
    ensures Find(notes, noteId).Some? ==>
      && i < |notes| && notes[i] == Find(notes, noteId).value && notes[i].noteId == Some(noteId as int64)
      && forall j | 0 <= j < i :: notes[j].noteId != Some(noteId as int64)
    decreases |notes|
  {
    if notes == [] {
      i := 0;
    } else if notes[0].noteId == Some(noteId as int64) {
      i := 0;
    } else {
      var k := FindIsFirst(notes[1..], noteId);
      i := k + 1;
      assert forall j | 1 <= j < |notes| :: notes[j] == notes[1..][j - 1];
    }
  }

  datatype FetchOutcome =
    | BadRequest(routeValue: Option<string>)  // the route value is not an `int`
    | SourceUnavailable                       // the blob is missing or has no content: an exception
    | DeserializeFailed                       // a line is not valid JSON: an exception
    | NotFound(noteId: int32)
    | Ok(note: Record)

  /**
   * The answer for a route value and the blob's text (`None` when the blob cannot be read):
   * the route is checked before the blob is touched.
   */
  function Fetch(routeValue: Option<string>, blob: Option<string>, decode: string -> Deserialized<Record>): FetchOutcome {
    var noteId := if routeValue.Some? then ParseInt32(routeValue.value) else None;
    if noteId.None? then BadRequest(routeValue)
    else if blob.None? then SourceUnavailable
    else match Notes(decode, Lines(blob.value))
      case None => DeserializeFailed
      case Some(notes) =>
        match Find(notes, noteId.value)
        case None => NotFound(noteId.value)
        case Some(note) => Ok(note)
  }

  /**
   * The answers: `BadRequest` exactly when the route value does not parse; otherwise, with a
   * readable blob whose lines all deserialise, `Ok` with the first note of the id in line order,
   * or `NotFound` when no line holds a note of that id.
   */
  lemma FetchAnswers(routeValue: Option<string>, blob: Option<string>, decode: string -> Deserialized<Record>)
    ensures Fetch(routeValue, blob, decode).BadRequest? <==> routeValue.None? || ParseInt32(routeValue.value).None?
    ensures Fetch(routeValue, blob, decode).Ok? ==>
      var id := ParseInt32(routeValue.value).value;
      var notes := Notes(decode, Lines(blob.value)).value;
      exists i | 0 <= i < |notes| ::
        && notes[i] == Fetch(routeValue, blob, decode).note && notes[i].noteId == Some(id as int64)
        && forall j | 0 <= j < i :: notes[j].noteId != Some(id as int64)
    ensures Fetch(routeValue, blob, decode).NotFound? <==>
      && routeValue.Some? && ParseInt32(routeValue.value).Some? && blob.Some?
      && Notes(decode, Lines(blob.value)).Some?
      && forall note | note in Notes(decode, Lines(blob.value)).value ::
           note.noteId != Some(ParseInt32(routeValue.value).value as int64)
  {
    if routeValue.Some? && ParseInt32(routeValue.value).Some? && blob.Some? && Notes(decode, Lines(blob.value)).Some? {
      var notes := Notes(decode, Lines(blob.value)).value;
      var i := FindIsFirst(notes, ParseInt32(routeValue.value).value);
    }
  }

  /** `Run`: the route check, the blob read, the NDJSON parse and the lookup. */
  method Run(routeValue: Option<string>, blob: Option<string>, decode: string -> Deserialized<Record>)
    returns (outcome: FetchOutcome)
    ensures outcome == Fetch(routeValue, blob, decode)
  {
    var noteId := if routeValue.Some? then ParseInt32(routeValue.value) else None;
    if noteId.None? {
      return BadRequest(routeValue);
    }
    if blob.None? {
      return SourceUnavailable;
    }
    var notes := DeserializeNdJson(blob.value, decode);
    if notes.None? {
      return DeserializeFailed;
    }
    outcome := match Find(notes.value, noteId.value)
      case None => NotFound(noteId.value)
      case Some(note) => Ok(note);
  }
}
