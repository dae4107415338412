/** The metadata and note store. The two JSON files are the two maps of the
    service, keyed by document id and by note id; every operation loads the
    file, changes the dictionary and writes it back, which here is an update
    of the field. */
module Persistence {
  import opened Common
  import opened Models

  /** The records of a store whose field `key` holds `value` (`doc.get(key) == value`). */
  function Matching(store: map<string, Record>, key: string, value: Json): (r: map<string, Record>)
    ensures forall id :: id in r <==> id in store && Field(store[id], key) == Some(value)
    ensures forall id :: id in r ==> r[id] == store[id]
  {
    map id | id in store && Field(store[id], key) == Some(value) :: store[id]
  }

  /** `record.update(updates)` followed by stamping `updated_at`. */
  function Updated(rec: Record, updates: Record, now: string): (r: Record)
    ensures Field(r, "updated_at") == Some(JStr(now))
    ensures forall k :: k in updates && k != "updated_at" ==> Field(r, k) == Some(updates[k])
    ensures forall k :: k in rec && k !in updates && k != "updated_at" ==> Field(r, k) == Some(rec[k])
    ensures r.Keys == rec.Keys + updates.Keys + {"updated_at"}
  {
    (rec + updates)["updated_at" := JStr(now)]
  }

  /** The fields set_document_indexed writes. */
  function IndexedUpdates(chunkCount: int, raptorLayers: Option<int>, indexedAt: string): Record {
    map["is_indexed" := JBool(true), "indexed_at" := JStr(indexedAt),
        "chunk_count" := JInt(chunkCount), "raptor_layers" := OptionalInt(raptorLayers)]
  }

  /** The notes left by delete_notes_by_document. */
  function WithoutNotesOf(notes: map<string, Record>, documentId: string): (r: map<string, Record>)
    ensures forall id :: id in r <==> id in notes && id !in Matching(notes, "document_id", JStr(documentId))
    ensures forall id :: id in r ==> r[id] == notes[id]
  {
    map id | id in notes && Field(notes[id], "document_id") != Some(JStr(documentId)) :: notes[id]
  }

  class PersistenceService {
    /** documents.json: document id to the dumped DocumentMetadata. */
    var docs: map<string, Record>
    /** notes.json: note id to the dumped NoteMetadata. */
    var notes: map<string, Record>

    /** Both files start out missing, which loads as an empty dictionary. */
    constructor ()
      ensures docs == map[] && notes == map[]
    {
      docs := map[];
      notes := map[];
    }

    // ---------------------------------------------------------------- documents

    method SaveDocument(d: DocumentMetadata)
      modifies this
      ensures docs == old(docs)[d.id := DocumentRecord(d)]
      ensures notes == old(notes)
      ensures GetDocument(d.id) == Some(DocumentRecord(d))
    {
      docs := docs[d.id := DocumentRecord(d)];
    }

    function GetDocument(documentId: string): (r: Option<Record>)
      reads this
      ensures r.None? <==> documentId !in docs
      ensures r.Some? ==> r.value == docs[documentId]
    {
      if documentId !in docs then None else Some(docs[documentId])
    }

    /** The stored documents, as a set since dictionary order is not modelled. */
    function GetAllDocuments(): (r: set<Record>)
      reads this
      ensures forall id :: id in docs ==> docs[id] in r
      ensures forall rec :: rec in r ==> exists id :: id in docs && docs[id] == rec
    {
      docs.Values
    }

    function GetDocumentsByCategory(category: DocumentCategory): (r: map<string, Record>)
      reads this
      ensures forall id :: id in r <==> id in docs && Field(docs[id], "category") == Some(JStr(CategoryValue(category)))
    {
      Matching(docs, "category", JStr(CategoryValue(category)))
    }

    function GetDocumentsByParent(parentId: string): (r: map<string, Record>)
      reads this
      ensures forall id :: id in r <==> id in docs && Field(docs[id], "parent_id") == Some(JStr(parentId))
    {
      Matching(docs, "parent_id", JStr(parentId))
    }

    /** update_document: false and nothing changed for an unknown id; otherwise
        the record takes the updates and the time of the update. */
    method UpdateDocument(documentId: string, updates: Record, now: string) returns (found: bool)
      modifies this
      ensures found <==> documentId in old(docs)
      ensures found ==> docs == old(docs)[documentId := Updated(old(docs)[documentId], updates, now)]
      ensures !found ==> docs == old(docs)
      ensures notes == old(notes)
    {
      if documentId !in docs {
        return false;
      }
      docs := docs[documentId := Updated(docs[documentId], updates, now)];
      return true;
    }

    method DeleteDocument(documentId: string) returns (found: bool)
      modifies this
      ensures found <==> documentId in old(docs)
      ensures docs == old(docs) - {documentId}
      ensures notes == old(notes)
    {
      if documentId !in docs {
        return false;
      }
      docs := docs - {documentId};
      return true;
    }

    /** set_document_indexed: the two timestamps are the two clock readings
        the source takes, first for indexed_at, then inside update_document. */
    method SetDocumentIndexed(documentId: string, chunkCount: int, raptorLayers: Option<int>,
                              indexedAt: string, updatedAt: string)
      modifies this
      ensures documentId in old(docs) ==>
                docs == old(docs)[documentId := Updated(old(docs)[documentId],
                                                IndexedUpdates(chunkCount, raptorLayers, indexedAt), updatedAt)]
      ensures documentId !in old(docs) ==> docs == old(docs)
      ensures notes == old(notes)
    {
      var _ := UpdateDocument(documentId, IndexedUpdates(chunkCount, raptorLayers, indexedAt), updatedAt);
    }

    // ---------------------------------------------------------------- notes

    method SaveNote(n: NoteMetadata)
      modifies this
      ensures notes == old(notes)[n.id := NoteRecord(n)]
      ensures docs == old(docs)
      ensures GetNote(n.id) == Some(NoteRecord(n))
    {
      notes := notes[n.id := NoteRecord(n)];
    }

    function GetNote(noteId: string): (r: Option<Record>)
      reads this
      ensures r.None? <==> noteId !in notes
      ensures r.Some? ==> r.value == notes[noteId]
    {
      if noteId !in notes then None else Some(notes[noteId])
    }

    function GetNotesByDocument(documentId: string): (r: map<string, Record>)
      reads this
      ensures forall id :: id in r <==> id in notes && Field(notes[id], "document_id") == Some(JStr(documentId))
    {
      Matching(notes, "document_id", JStr(documentId))
    }

    method UpdateNote(noteId: string, updates: Record, now: string) returns (found: bool)
      modifies this
      ensures found <==> noteId in old(notes)
      ensures found ==> notes == old(notes)[noteId := Updated(old(notes)[noteId], updates, now)]
      ensures !found ==> notes == old(notes)
      ensures docs == old(docs)
    {
      if noteId !in notes {
        return false;
      }
      notes := notes[noteId := Updated(notes[noteId], updates, now)];
      return true;
    }

    method DeleteNote(noteId: string) returns (found: bool)
      modifies this
      ensures found <==> noteId in old(notes)
      ensures notes == old(notes) - {noteId}
      ensures docs == old(docs)
    {
      if noteId !in notes {
        return false;
      }
      notes := notes - {noteId};
      return true;
    }

    /** delete_notes_by_document: collects the ids of the document's notes,
        deletes them one by one and returns how many there were. */
    method DeleteNotesByDocument(documentId: string) returns (count: nat)
      modifies this
      ensures notes == WithoutNotesOf(old(notes), documentId)
      ensures count == |Matching(old(notes), "document_id", JStr(documentId)).Keys|
      ensures docs == old(docs)
    {
      var toDelete := Matching(notes, "document_id", JStr(documentId)).Keys;
      ghost var all := toDelete;
      var remaining := toDelete;
      while remaining != {}
        invariant remaining <= all
        invariant notes.Keys == old(notes).Keys - (all - remaining)
        invariant forall id :: id in notes ==> notes[id] == old(notes)[id]
        invariant docs == old(docs)
        decreases |remaining|
      {
        var noteId :| noteId in remaining;
        notes := notes - {noteId};
        remaining := remaining - {noteId};
      }
      assert notes == WithoutNotesOf(old(notes), documentId);
      count := |toDelete|;
    }
  }

  // ---------------------------------------------------------------- properties of the store

  /** set_document_indexed leaves the document marked indexed, with its chunk
      count, layer count and both timestamps, and every other field it had. */
  lemma IndexedRecord(rec: Record, chunkCount: int, raptorLayers: Option<int>, indexedAt: string, updatedAt: string)
    ensures var r := Updated(rec, IndexedUpdates(chunkCount, raptorLayers, indexedAt), updatedAt);
            Field(r, "is_indexed") == Some(JBool(true))
            && Field(r, "indexed_at") == Some(JStr(indexedAt))
            && Field(r, "chunk_count") == Some(JInt(chunkCount))
            && Field(r, "raptor_layers") == Some(OptionalInt(raptorLayers))
            && Field(r, "updated_at") == Some(JStr(updatedAt))
            && (forall k :: k in rec && k !in {"is_indexed", "indexed_at", "chunk_count", "raptor_layers", "updated_at"}
                  ==> Field(r, k) == Some(rec[k]))
  {
    var u := IndexedUpdates(chunkCount, raptorLayers, indexedAt);
    assert "is_indexed" in u && "indexed_at" in u && "chunk_count" in u && "raptor_layers" in u;
  }

  /** A stored document is listed under exactly its own category. */
  lemma CategoryQueriesPartition(store: map<string, Record>, id: string, c: DocumentCategory, d: DocumentCategory)
    requires id in Matching(store, "category", JStr(CategoryValue(c)))
    ensures id in Matching(store, "category", JStr(CategoryValue(d))) <==> c == d
  {
    if c != d {
      assert CategoryValue(c) != CategoryValue(d) by {
        match c
        case Juridico => assert CategoryValue(c)[0] == 'j';
        case Financeiro => assert CategoryValue(c)[0] == 'f';
        case Tecnico => assert CategoryValue(c)[0] == 't';
        case Outros => assert CategoryValue(c)[0] == 'o';
      }
    }
  }

  /** A saved document is found by its category and, when it has one, by its parent. */
  lemma SavedDocumentListed(store: map<string, Record>, d: DocumentMetadata)
    ensures var s := store[d.id := DocumentRecord(d)];
            d.id in Matching(s, "category", JStr(CategoryValue(d.category)))
            && (d.parentId.Some? ==> d.id in Matching(s, "parent_id", JStr(d.parentId.value)))
            && (d.parentId.None? ==> forall p :: d.id !in Matching(s, "parent_id", JStr(p)))
  {
  }

  /** After delete_notes_by_document no note of the document is left, every
      other note is kept, and the count returned plus the notes kept is the
      number of notes there were. */
  lemma {:induction false} DeleteNotesPartition(notes: map<string, Record>, documentId: string)
    ensures Matching(WithoutNotesOf(notes, documentId), "document_id", JStr(documentId)) == map[]
    ensures forall id :: id in notes && id !in Matching(notes, "document_id", JStr(documentId))
              ==> id in WithoutNotesOf(notes, documentId)
    ensures |WithoutNotesOf(notes, documentId).Keys| + |Matching(notes, "document_id", JStr(documentId)).Keys|
              == |notes.Keys|
  {
    var kept := WithoutNotesOf(notes, documentId).Keys;
    var gone := Matching(notes, "document_id", JStr(documentId)).Keys;
    assert kept * gone == {};
    assert kept + gone == notes.Keys;
    var m := Matching(WithoutNotesOf(notes, documentId), "document_id", JStr(documentId));
    assert m.Keys == {};
  }
}
