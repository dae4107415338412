/** The service records: document categories and note types with their
    string values, the document and note metadata records, and the JSON
    dictionaries those records are stored as. */
module Models {
  import opened Common

  datatype DocumentCategory = Juridico | Financeiro | Tecnico | Outros

  function CategoryValue(c: DocumentCategory): string {
    match c
    case Juridico => "juridico"
    case Financeiro => "financeiro"
    case Tecnico => "tecnico"
    case Outros => "outros"
  }

  datatype NoteType = GlobalNote | PageNote | SelectionNote

  function NoteTypeValue(t: NoteType): string {
    match t
    case GlobalNote => "global"
    case PageNote => "page"
    case SelectionNote => "selection"
  }

  /** A stored JSON object. */
  type Record = map<string, Json>

  /** `record.get(key)` */
  function Field(r: Record, key: string): Option<Json> {
    if key in r then Some(r[key]) else None
  }

  function OptionalText(v: Option<string>): Json {
    if v.Some? then JStr(v.value) else JNull
  }

  function OptionalInt(v: Option<int>): Json {
    if v.Some? then JInt(v.value) else JNull
  }

  /** Metadata of one PDF; timestamps are their ISO strings. */
  datatype DocumentMetadata = DocumentMetadata(
    id: string, filename: string, title: string, category: DocumentCategory, path: string,
    fileSize: int, pageCount: int, createdAt: string, updatedAt: string,
    indexedAt: Option<string>, isIndexed: bool, parentId: Option<string>)

  /** The stored dict of a document: its model_dump() fields, with the
      timestamps as ISO strings (the JSON form of model_dump(mode="json")). */
  function DocumentRecord(d: DocumentMetadata): (r: Record)
    ensures Field(r, "id") == Some(JStr(d.id))
    ensures Field(r, "category") == Some(JStr(CategoryValue(d.category)))
    ensures Field(r, "parent_id") == Some(OptionalText(d.parentId))
  {
    map["id" := JStr(d.id), "filename" := JStr(d.filename), "title" := JStr(d.title),
        "category" := JStr(CategoryValue(d.category)), "path" := JStr(d.path),
        "file_size" := JInt(d.fileSize), "page_count" := JInt(d.pageCount),
        "created_at" := JStr(d.createdAt), "updated_at" := JStr(d.updatedAt),
        "indexed_at" := OptionalText(d.indexedAt), "is_indexed" := JBool(d.isIndexed),
        "parent_id" := OptionalText(d.parentId)]
  }

  /** An annotation on a document. */
  datatype NoteMetadata = NoteMetadata(
    id: string, documentId: string, noteType: NoteType, content: string,
    pageNumber: Option<int>, textSelection: Option<string>, createdAt: string, updatedAt: string)

  /** The stored dict of a note: its model_dump() fields, with the
      timestamps as ISO strings (the JSON form of model_dump(mode="json")). */
  function NoteRecord(n: NoteMetadata): (r: Record)
    ensures Field(r, "id") == Some(JStr(n.id))
    ensures Field(r, "document_id") == Some(JStr(n.documentId))
  {
    map["id" := JStr(n.id), "document_id" := JStr(n.documentId),
        "note_type" := JStr(NoteTypeValue(n.noteType)), "content" := JStr(n.content),
        "page_number" := OptionalInt(n.pageNumber), "text_selection" := OptionalText(n.textSelection),
        "created_at" := JStr(n.createdAt), "updated_at" := JStr(n.updatedAt)]
  }
}
