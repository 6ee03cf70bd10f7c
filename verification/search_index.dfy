/**
 * The Azure AI Search index as the loaders see it: documents stored under the text of their
 * `IndexRecordId` key field, batches of `upload` or `mergeOrUpload` actions, deletion by key,
 * and the filter query on `NoteId`.
 */
module SearchIndexes {
  import opened Wrappers
  import opened Text
  import opened Values

  const KeyField: string := "IndexRecordId"

  /**
   * The key text of a `Guid`: distinct `Guid`s give distinct texts, and, like the final group of
   * twelve hexadecimal digits that `Guid.ToString()` ends with, the text after the last `-` holds
   * a hexadecimal letter and is no decimal number.
   */
  function GuidText(g: Guid): string {
    NatToString(g.serial) + "-a"
  }

  lemma GuidTextInjective(a: Guid, b: Guid)
    requires GuidText(a) == GuidText(b)
    ensures a == b
  {
    var s := GuidText(a);
    assert NatToString(a.serial) == s[..|s| - 2] == NatToString(b.serial);
    DigitsRoundTrip(a.serial);
    DigitsRoundTrip(b.serial);
  }

  /**
   * The key the service reads from a document: the key field as a string or a `Guid`. A missing,
   * null, empty or otherwise typed key makes that one action fail.
   */
  function KeyOf(doc: Document): (r: Option<string>)
    ensures r.Some? ==> r.value != [] && KeyField in doc
    ensures KeyField in doc && doc[KeyField].Str? && doc[KeyField].s != [] ==> r == Some(doc[KeyField].s)
  {
    if KeyField !in doc then None
    else match doc[KeyField]
      case Str(s) => if s == [] then None else Some(s)
      case GuidValue(g) => Some(GuidText(g))
      case _ => None
  }

  /** The two index actions the loaders use. */
  datatype Action =
    | Upload          // the stored document is replaced by the new one
    | MergeOrUpload   // the new fields overwrite the stored ones, the other stored fields stay

  /** One action on the stored documents; a document without a usable key leaves them as they are. */
  function Apply1(docs: map<string, Document>, action: Action, doc: Document): map<string, Document> {
    match KeyOf(doc)
    case None => docs
    case Some(k) =>
      docs[k := if action == MergeOrUpload && k in docs then docs[k] + doc else doc]
  }

  /** A batch, action by action in batch order. */
  function Indexed(docs: map<string, Document>, action: Action, batch: seq<Document>): map<string, Document>
    decreases |batch|
  {
    if batch == [] then docs
    else Apply1(Indexed(docs, action, batch[..|batch| - 1]), action, batch[|batch| - 1])
  }

  /** The keys a batch writes to. */
  function BatchKeys(batch: seq<Document>): set<string> {
    set i | 0 <= i < |batch| && KeyOf(batch[i]).Some? :: KeyOf(batch[i]).value
  }

  /** No two documents of the batch carry the same key. */
  predicate DistinctKeys(batch: seq<Document>) {
    forall i, j | 0 <= i < j < |batch| && KeyOf(batch[i]).Some? :: KeyOf(batch[i]) != KeyOf(batch[j])
  }

  /** A batch adds exactly its keys and leaves every other stored document as it was. */
  lemma {:induction false} IndexedFrame(docs: map<string, Document>, action: Action, batch: seq<Document>)
    ensures Indexed(docs, action, batch).Keys == docs.Keys + BatchKeys(batch)
    ensures forall k | k in docs && k !in BatchKeys(batch) :: Indexed(docs, action, batch)[k] == docs[k]
  {
    if batch != [] {
      var init := batch[..|batch| - 1];
      IndexedFrame(docs, action, init);
      assert BatchKeys(batch) == BatchKeys(init) + (if KeyOf(batch[|batch| - 1]).Some? then {KeyOf(batch[|batch| - 1]).value} else {}) by {
        forall k | k in BatchKeys(batch) ensures k in BatchKeys(init) || KeyOf(batch[|batch| - 1]) == Some(k) {
          var i :| 0 <= i < |batch| && KeyOf(batch[i]).Some? && KeyOf(batch[i]).value == k;
          if i < |batch| - 1 {
            assert init[i] == batch[i];
          }
        }
        forall k | k in BatchKeys(init) ensures k in BatchKeys(batch) {
          var i :| 0 <= i < |init| && KeyOf(init[i]).Some? && KeyOf(init[i]).value == k;
          assert batch[i] == init[i];
        }
      }
    }
  }

  /**
   * With distinct keys, the document stored under the key of `batch[i]` afterwards is `batch[i]`
   * for `Upload`, and `batch[i]` merged over what was stored before for `MergeOrUpload`.
   */
  lemma {:induction false} IndexedStores(docs: map<string, Document>, action: Action, batch: seq<Document>, i: nat)
    requires DistinctKeys(batch)
    requires i < |batch| && KeyOf(batch[i]).Some?
    ensures var k := KeyOf(batch[i]).value;
      var after := Indexed(docs, action, batch);
      k in after && after[k] == if action == MergeOrUpload && k in docs then docs[k] + batch[i] else batch[i]
  {
    var k := KeyOf(batch[i]).value;
    var init := batch[..|batch| - 1];
    if i == |batch| - 1 {
      IndexedFrame(docs, action, init);
      assert k !in BatchKeys(init) by {
        forall j | 0 <= j < |init| && KeyOf(init[j]).Some? ensures KeyOf(init[j]).value != k {
          assert init[j] == batch[j];
        }
      }
    } else {
      assert init[i] == batch[i];
      assert DistinctKeys(init) by {
        forall a, b | 0 <= a < b < |init| && KeyOf(init[a]).Some? ensures KeyOf(init[a]) != KeyOf(init[b]) {
          assert init[a] == batch[a] && init[b] == batch[b];
        }
      }
      IndexedStores(docs, action, init, i);
    }
  }

  /** `NoteId eq {noteId}`: the document's `NoteId` field holds that integer. */
  predicate BelongsTo(doc: Document, noteId: int) {
    && "NoteId" in doc
    && match doc["NoteId"]
       case Int64(l) => l == noteId
       case Int32(n) => n == noteId
       case _ => false
  }

  /** The keys of the stored documents of one note. */
  function NoteKeys(docs: map<string, Document>, noteId: int): (r: set<string>)
    ensures r <= docs.Keys
  {
    set k | k in docs && BelongsTo(docs[k], noteId)
  }

  class SearchIndex {
    var docs: map<string, Document>

    constructor ()
      ensures docs == map[]
    {
      docs := map[];
    }

    /** `DeleteIndexAsync` followed by `CreateOrUpdateIndexAsync`: the index comes back empty. */
    method Recreate()
      modifies this
      ensures docs == map[]
    {
      docs := map[];
    }

    /** `DeleteDocumentsAsync(keys)`: the documents under those keys are gone; keys not stored are ignored. */
    method DeleteDocuments(keys: seq<string>)
      modifies this
      ensures docs == old(docs) - set k | k in keys
    {
      docs := docs - set k | k in keys;
    }

    /**
     * `IndexDocumentsAsync(batch, ThrowOnAnyError = true)`: the actions run in batch order; a
     * failed action raises nothing that the loaders do not catch and changes nothing itself.
     */
    method IndexDocuments(action: Action, batch: seq<Document>)
      modifies this
      ensures docs == Indexed(old(docs), action, batch)
    {
      docs := Indexed(docs, action, batch);
    }

    /**
     * The filter query `NoteId eq {noteId}`, streamed: each key of the note's stored documents
     * exactly once, in an order the service chooses.
     */
    method KeysOfNote(noteId: int) returns (keys: seq<string>)
      ensures (set k | k in keys) == NoteKeys(docs, noteId)
      ensures Distinct(keys)
    {
      var remaining := NoteKeys(docs, noteId);
      keys := [];
      while remaining != {}
        invariant remaining !! (set k | k in keys)
        invariant (set k | k in keys) + remaining == NoteKeys(docs, noteId)
        invariant Distinct(keys)
        decreases |remaining|
      {
        var k :| k in remaining;
        DistinctAppend(keys, k);
        keys := keys + [k];
        remaining := remaining - {k};
      }
    }
  }
}
