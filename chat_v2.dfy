/** The second chat service: the category-to-prompt mapping, context
    assembly with per-chunk truncation, the simple and chain-of-thought chat
    paths with the document lookup, and the summary with its level, detail
    and fallbacks. Prompt templates are not modelled: the chat model is a
    parameter that receives the structured prompt request. */
module ChatV2 {
  import opened Common
  import opened Models
  import Prompts
  import Rag
  import Raptor
  import Chat

  const NotFound: string := "Documento não encontrado."
  const SummaryHeading: string := "## RESUMO EXECUTIVO DO DOCUMENTO\n"
  const ChunksHeading: string := "## TRECHOS RELEVANTES DO DOCUMENTO\n"
  const TruncationMarker: string := "\n\n[⚠️ Contexto truncado devido ao limite de tokens]"

  /** Chunk texts longer than this are cut in the context. */
  const MaxChunkChars: nat := 500

  // ---------------------------------------------------------------- _map_category_to_doctype

  function MapCategoryToDocType(c: DocumentCategory): (t: Prompts.DocType)
    ensures t == Prompts.Juridico <==> c == Juridico
    ensures t == Prompts.Financeiro <==> c == Financeiro
    ensures t == Prompts.Tecnico <==> c == Tecnico
    ensures t == Prompts.Geral <==> c == Outros
  {
    match c
    case Juridico => Prompts.Juridico
    case Financeiro => Prompts.Financeiro
    case Tecnico => Prompts.Tecnico
    case Outros => Prompts.Geral
  }

  /** The category whose value is v (a str enum compares equal to its value). */
  function CategoryNamed(v: string): (c: Option<DocumentCategory>)
    ensures c.Some? ==> CategoryValue(c.value) == v
  {
    if v == "juridico" then Some(Juridico)
    else if v == "financeiro" then Some(Financeiro)
    else if v == "tecnico" then Some(Tecnico)
    else if v == "outros" then Some(Outros)
    else None
  }

  lemma CategoryNamedValue(c: DocumentCategory)
    ensures CategoryNamed(CategoryValue(c)) == Some(c)
  {
    match c
    case Juridico =>
    case Financeiro =>
      assert CategoryValue(c)[0] == 'f';
    case Tecnico =>
      assert CategoryValue(c)[0] == 't';
    case Outros =>
      assert CategoryValue(c)[0] == 'o';
  }

  /** `self._map_category_to_doctype(doc_metadata.get("category", OUTROS))` on a
      metadata dictionary: a value that is no category falls to GERAL. */
  function DocTypeOf(meta: Record): Prompts.DocType {
    match Field(meta, "category")
    case Some(JStr(v)) => if CategoryNamed(v).Some? then MapCategoryToDocType(CategoryNamed(v).value) else Prompts.Geral
    case _ => Prompts.Geral
  }

  /** The stored form of a document yields the prompt type of its category. */
  lemma DocTypeOfRecord(d: DocumentMetadata)
    ensures DocTypeOf(DocumentRecord(d)) == MapCategoryToDocType(d.category)
    ensures DocTypeOf(DocumentRecord(d)) == Prompts.Geral <==> d.category == Outros
  {
    CategoryNamedValue(d.category);
  }

  /** `meta.get(key, default)` */
  function FieldOr(meta: Record, key: string, default: Json): Json {
    if key in meta then meta[key] else default
  }

  // ---------------------------------------------------------------- build_context

  /** The executive summary, when RAPTOR is on and the tree has a non-empty top summary. */
  function SummaryParts(useRaptor: bool, tree: Option<Raptor.Tree>): seq<string> {
    if useRaptor && tree.Some? && Raptor.GetRaptorSummary(tree.value, -1) != "" then
      [SummaryHeading + Raptor.GetRaptorSummary(tree.value, -1) + "\n"]
    else []
  }

  function ChunkHeader(i: nat, hit: Rag.Hit): string {
    "\n[Trecho " + NatToString(i) + " - Página " + PageLabel(hit.metadata) + "]"
  }

  /** The header and the cut text of each of the first n chunks. */
  function ChunkParts(chunks: seq<Rag.Hit>, n: nat): (r: seq<string>)
    requires n <= |chunks|
    ensures |r| == 2 * n
  {
    if n == 0 then []
    else ChunkParts(chunks, n - 1) + [ChunkHeader(n, chunks[n - 1]), Clip(chunks[n - 1].text, MaxChunkChars)]
  }

  function ContextParts(chunks: seq<Rag.Hit>, useRaptor: bool, tree: Option<Raptor.Tree>): seq<string> {
    SummaryParts(useRaptor, tree) + [ChunksHeading] + ChunkParts(chunks, |chunks|)
  }

  function Context(chunks: seq<Rag.Hit>, useRaptor: bool, tree: Option<Raptor.Tree>, countTokens: string -> nat): string {
    var full := Join("\n", ContextParts(chunks, useRaptor, tree));
    Chat.LimitContext(full, countTokens(full), TruncationMarker)
  }

  /** build_context, with the tokenizer as countTokens. */
  method BuildContext(query: string, chunks: seq<Rag.Hit>, useRaptor: bool, tree: Option<Raptor.Tree>,
                      countTokens: string -> nat) returns (context: string)
    ensures context == Context(chunks, useRaptor, tree, countTokens)
  {
    var parts: seq<string> := [];
    if useRaptor && tree.Some? {
      var summary := Raptor.GetRaptorSummary(tree.value, -1);
      if summary != "" {
        parts := parts + [SummaryHeading + summary + "\n"];
      }
    }
    parts := parts + [ChunksHeading];
    ghost var base := parts;
    assert base == SummaryParts(useRaptor, tree) + [ChunksHeading];
    var i := 0;
    while i < |chunks|
      invariant 0 <= i <= |chunks|
      invariant parts == base + ChunkParts(chunks, i)
    {
      var page := PageLabel(chunks[i].metadata);
      var text := chunks[i].text;
      if |text| > 500 {
        text := text[..500] + "...";
      }
      parts := parts + ["\n[Trecho " + NatToString(i + 1) + " - Página " + page + "]"];
      parts := parts + [text];
      assert parts == base + ChunkParts(chunks, i + 1);
      i := i + 1;
    }
    assert parts == ContextParts(chunks, useRaptor, tree);
    var full := Join("\n", parts);
    if countTokens(full) > Chat.MaxContextTokens {
      var availableTokens := Chat.MaxContextTokens - 500;
      var maxChars := availableTokens * 4;
      full := Take(full, maxChars) + TruncationMarker;
    }
    context := full;
  }

  lemma {:induction false} ChunkPartsAt(chunks: seq<Rag.Hit>, n: nat, k: nat)
    requires k < n <= |chunks|
    ensures ChunkParts(chunks, n)[2 * k] == ChunkHeader(k + 1, chunks[k])
    ensures ChunkParts(chunks, n)[2 * k + 1] == Clip(chunks[k].text, MaxChunkChars)
    decreases n
  {
    if k < n - 1 {
      ChunkPartsAt(chunks, n - 1, k);
    }
  }

  /** The parts are the optional summary, the heading, then for each chunk in
      order its numbered header and its text, kept whole up to 500 characters
      and otherwise cut to its first 500 followed by "...". */
  lemma ContextShape(chunks: seq<Rag.Hit>, useRaptor: bool, tree: Option<Raptor.Tree>, k: nat)
    requires k < |chunks|
    ensures var parts := ContextParts(chunks, useRaptor, tree);
            var off := |SummaryParts(useRaptor, tree)| + 1;
            var t := chunks[k].text;
            (off == 2 <==> useRaptor && tree.Some? && Raptor.GetRaptorSummary(tree.value, -1) != "")
            && off <= 2 && |parts| == off + 2 * |chunks|
            && parts[off - 1] == ChunksHeading
            && parts[off + 2 * k] == ChunkHeader(k + 1, chunks[k])
            && (|t| <= 500 ==> parts[off + 2 * k + 1] == t)
            && (|t| > 500 ==> parts[off + 2 * k + 1] == t[..500] + "...")
  {
    ChunkPartsAt(chunks, |chunks|, k);
  }

  // ---------------------------------------------------------------- chat and chat_with_cot

  /** What the chat model is asked: the simple prompt, or the chain-of-thought
      prompt that also carries the history. Title and page count are the raw
      metadata values, with the defaults "Documento" and 0. */
  datatype ChatPrompt =
    | SimplePrompt(query: string, context: string, title: Json, pageCount: Json, docType: Prompts.DocType)
    | CotPrompt(query: string, context: string, title: Json, pageCount: Json, docType: Prompts.DocType,
                history: seq<Message>)

  function PromptFor(useCot: bool, query: string, context: string, meta: Record, history: seq<Message>): ChatPrompt {
    var title := FieldOr(meta, "title", JStr("Documento"));
    var pageCount := FieldOr(meta, "page_count", JInt(0));
    if useCot then CotPrompt(query, context, title, pageCount, DocTypeOf(meta), history)
    else SimplePrompt(query, context, title, pageCount, DocTypeOf(meta))
  }

  /** Both paths once the metadata is known: the apology for an empty
      retrieval, otherwise the model's answer with the sources and summary. */
  function Answer(query: string, history: seq<Message>, useRaptor: bool, useCot: bool, meta: Record,
                  results: seq<Rag.Hit>, tree: Option<Raptor.Tree>, countTokens: string -> nat,
                  llm: ChatPrompt -> LlmReply): Chat.ChatResponse
  {
    if |results| == 0 then Chat.ChatResponse(Chat.Apology, [], None)
    else
      var context := Context(results, useRaptor, tree, countTokens);
      Chat.ChatResponse(Chat.AnswerText(llm(PromptFor(useCot, query, context, meta, history))),
                        Chat.Sources(results), Chat.RaptorSummaryOf(useRaptor, tree))
  }

  /** The metadata a chat reads: the caller's dictionary, else the stored
      document's fields, else nothing. */
  function MetadataFor(docMetadata: Option<Record>, stored: Option<DocumentMetadata>): Option<Record> {
    if docMetadata.Some? then docMetadata
    else if stored.Some? then Some(DocumentRecord(stored.value))
    else None
  }

  /** chat: `docMetadata` is the caller's dictionary (None when not given),
      `stored` what get_document returns, `results` the hybrid_search answer,
      `tree` what load_raptor_tree returns. */
  function ChatReply(query: string, history: seq<Message>, useRaptor: bool, useCot: bool,
                     docMetadata: Option<Record>, stored: Option<DocumentMetadata>,
                     results: seq<Rag.Hit>, tree: Option<Raptor.Tree>, countTokens: string -> nat,
                     llm: ChatPrompt -> LlmReply): Chat.ChatResponse
  {
    match MetadataFor(docMetadata, stored)
    case None => Chat.ChatResponse(NotFound, [], None)
    case Some(meta) => Answer(query, history, useRaptor, useCot, meta, results, tree, countTokens, llm)
  }

  /** The text and metadata of each retrieved record, as the prompt helpers read them. */
  function Passages<T>(records: seq<T>, text: T -> string, metadata: T -> map<string, Json>): (r: seq<Prompts.Passage>)
    ensures |r| == |records|
  {
    seq(|records|, k requires 0 <= k < |records| => Prompts.Passage(text(records[k]), metadata(records[k])))
  }

  function HitPassages(hits: seq<Rag.Hit>): seq<Prompts.Passage> {
    Passages(hits, (h: Rag.Hit) => h.text, (h: Rag.Hit) => h.metadata)
  }

  /** chat_with_cot: the validation of the answer is computed and not used. */
  method ChatWithCot(query: string, history: seq<Message>, useRaptor: bool, meta: Record,
                     results: seq<Rag.Hit>, tree: Option<Raptor.Tree>, countTokens: string -> nat,
                     llm: ChatPrompt -> LlmReply) returns (resp: Chat.ChatResponse)
    ensures resp == Answer(query, history, useRaptor, true, meta, results, tree, countTokens, llm)
  {
    if |results| == 0 {
      return Chat.ChatResponse(Chat.Apology, [], None);
    }
    var raptorSummary: Option<string> := None;
    var raptorTree: Option<Raptor.Tree> := None;
    if useRaptor {
      raptorTree := tree;
      if raptorTree.Some? {
        raptorSummary := Some(Raptor.GetRaptorSummary(raptorTree.value, -1));
      }
    }
    var context := BuildContext(query, results, useRaptor, raptorTree, countTokens);
    var answer := Chat.AnswerText(llm(PromptFor(true, query, context, meta, history)));
    var _ := Prompts.ValidateResponse(answer, query, HitPassages(results));
    var sources := Chat.CollectSources(results);
    resp := Chat.ChatResponse(answer, sources, raptorSummary);
  }

  /** chat, with the document lookup corrected as described under Findings. */
  method ChatV2(query: string, history: seq<Message>, useRaptor: bool, useCot: bool,
                docMetadata: Option<Record>, stored: Option<DocumentMetadata>,
                results: seq<Rag.Hit>, tree: Option<Raptor.Tree>, countTokens: string -> nat,
                llm: ChatPrompt -> LlmReply) returns (resp: Chat.ChatResponse)
    ensures resp == ChatReply(query, history, useRaptor, useCot, docMetadata, stored, results, tree, countTokens, llm)
  {
    var meta: Record;
    if docMetadata.None? {
      if stored.None? {
        return Chat.ChatResponse(NotFound, [], None);
      }
      meta := DocumentRecord(stored.value);
    } else {
      meta := docMetadata.value;
    }
    if useCot {
      resp := ChatWithCot(query, history, useRaptor, meta, results, tree, countTokens, llm);
      return;
    }
    if |results| == 0 {
      return Chat.ChatResponse(Chat.Apology, [], None);
    }
    var raptorSummary: Option<string> := None;
    var raptorTree: Option<Raptor.Tree> := None;
    if useRaptor {
      raptorTree := tree;
      if raptorTree.Some? {
        raptorSummary := Some(Raptor.GetRaptorSummary(raptorTree.value, -1));
      }
    }
    var context := BuildContext(query, results, useRaptor, raptorTree, countTokens);
    var answer := Chat.AnswerText(llm(PromptFor(false, query, context, meta, history)));
    var sources := Chat.CollectSources(results);
    resp := Chat.ChatResponse(answer, sources, raptorSummary);
  }

  /** The outcomes of chat as written: a response, or the AttributeError that
      `.get` raises on the DocumentMetadata object get_document returns. */
  datatype Outcome = Responded(response: Chat.ChatResponse) | AttributeError

  /** chat as written: when no dictionary is given, the stored record object
      is read with dictionary `.get`, which fails once retrieval found
      something (the empty retrieval returns its apology first). */
  function ChatAsWritten(query: string, history: seq<Message>, useRaptor: bool, useCot: bool,
                         docMetadata: Option<Record>, stored: Option<DocumentMetadata>,
                         results: seq<Rag.Hit>, tree: Option<Raptor.Tree>, countTokens: string -> nat,
                         llm: ChatPrompt -> LlmReply): Outcome
  {
    if docMetadata.Some? then
      Responded(Answer(query, history, useRaptor, useCot, docMetadata.value, results, tree, countTokens, llm))
    else if stored.None? then Responded(Chat.ChatResponse(NotFound, [], None))
    else if |results| == 0 then Responded(Chat.ChatResponse(Chat.Apology, [], None))
    else AttributeError
  }

  /** For a stored document, no dictionary from the caller and a non-empty
      retrieval, the code as written fails, while the corrected chat answers
      from a prompt that carries the stored title, page count and category. */
  lemma StoredDocumentLookup(query: string, history: seq<Message>, useRaptor: bool, useCot: bool,
                             d: DocumentMetadata, results: seq<Rag.Hit>, tree: Option<Raptor.Tree>,
                             countTokens: string -> nat, llm: ChatPrompt -> LlmReply)
    requires |results| > 0
    ensures ChatAsWritten(query, history, useRaptor, useCot, None, Some(d), results, tree, countTokens, llm) == AttributeError
    ensures var context := Context(results, useRaptor, tree, countTokens);
            var p := PromptFor(useCot, query, context, DocumentRecord(d), history);
            p.title == JStr(d.title) && p.pageCount == JInt(d.pageCount)
            && p.docType == MapCategoryToDocType(d.category)
            && ChatReply(query, history, useRaptor, useCot, None, Some(d), results, tree, countTokens, llm).answer
               == Chat.AnswerText(llm(p))
  {
    DocTypeOfRecord(d);
  }

  /** Everywhere else the code as written and the corrected chat agree. */
  lemma ChatAsWrittenAgrees(query: string, history: seq<Message>, useRaptor: bool, useCot: bool,
                            docMetadata: Option<Record>, stored: Option<DocumentMetadata>,
                            results: seq<Rag.Hit>, tree: Option<Raptor.Tree>, countTokens: string -> nat,
                            llm: ChatPrompt -> LlmReply)
    requires docMetadata.Some? || stored.None? || |results| == 0
    ensures ChatAsWritten(query, history, useRaptor, useCot, docMetadata, stored, results, tree, countTokens, llm)
            == Responded(ChatReply(query, history, useRaptor, useCot, docMetadata, stored, results, tree, countTokens, llm))
  {
  }

  /** The paths of chat: an unknown document gets the not-found answer, an
      empty retrieval the apology, both with no sources and no summary;
      otherwise there is one source per result, the prompt is the chosen
      kind, and a failed model call is reported in the answer. */
  lemma ChatPaths(query: string, history: seq<Message>, useRaptor: bool, useCot: bool,
                  docMetadata: Option<Record>, stored: Option<DocumentMetadata>,
                  results: seq<Rag.Hit>, tree: Option<Raptor.Tree>, countTokens: string -> nat,
                  llm: ChatPrompt -> LlmReply)
    ensures var r := ChatReply(query, history, useRaptor, useCot, docMetadata, stored, results, tree, countTokens, llm);
            var meta := MetadataFor(docMetadata, stored);
            (meta.None? <==> docMetadata.None? && stored.None?)
            && (meta.None? ==> r == Chat.ChatResponse(NotFound, [], None))
            && (meta.Some? && |results| == 0 ==> r == Chat.ChatResponse(Chat.Apology, [], None))
            && (meta.Some? && |results| > 0 ==>
                  var p := PromptFor(useCot, query, Context(results, useRaptor, tree, countTokens), meta.value, history);
                  (p.CotPrompt? <==> useCot)
                  && (p.CotPrompt? ==> p.history == history)
                  && r.sources == Chat.Sources(results) && |r.sources| == |results|
                  && (llm(p).Completed? ==> r.answer == llm(p).text)
                  && (llm(p).Raised? ==> StartsWith(r.answer, "Erro ao processar sua pergunta: ")))
  {
  }

  // ---------------------------------------------------------------- summarize_document

  /** "brief" and "medium" name their levels; any other string is DETAILED. */
  function DetailEnum(detailLevel: string): (d: Prompts.DetailLevel)
    ensures d == Prompts.Brief <==> detailLevel == "brief"
    ensures d == Prompts.Medium <==> detailLevel == "medium"
    ensures d == Prompts.Detailed <==> detailLevel != "brief" && detailLevel != "medium"
  {
    if detailLevel == "brief" then Prompts.Brief
    else if detailLevel == "medium" then Prompts.Medium
    else Prompts.Detailed
  }

  /** The tree level read is deeper for a more detailed request: the enum and
      the level agree on the three known names. */
  lemma DetailAgreesWithLevel(detailLevel: string)
    ensures DetailEnum(detailLevel) == Prompts.Brief <==> Chat.LevelFor(detailLevel) == 2
    ensures DetailEnum(detailLevel) == Prompts.Medium <==> Chat.LevelFor(detailLevel) == 1
    ensures Chat.LevelFor(detailLevel) == 0 ==> DetailEnum(detailLevel) == Prompts.Detailed
    ensures Chat.LevelFor(detailLevel) == -1 ==> DetailEnum(detailLevel) == Prompts.Detailed
  {
  }

  /** What the summary model is asked. */
  datatype SummaryRequest = SummaryRequest(content: string, title: string, pageCount: int,
                                           detail: Prompts.DetailLevel, docType: Prompts.DocType)

  function ChunkPassages(chunks: seq<Rag.ChunkRecord>): seq<Prompts.Passage> {
    Passages(chunks, (c: Rag.ChunkRecord) => c.text, (c: Rag.ChunkRecord) => c.metadata)
  }

  /** The formatted chunks the summary reads and falls back to. */
  function CombinedText(chunks: seq<Rag.ChunkRecord>, pages: seq<int>): string {
    Prompts.FormattedChunks(ChunkPassages(Chat.SelectChunks(chunks, pages)), 500)
  }

  function RequestFor(combined: string, detailLevel: string, stored: Option<DocumentMetadata>): SummaryRequest {
    SummaryRequest(combined,
                   if stored.Some? then stored.value.title else "Documento",
                   if stored.Some? then stored.value.pageCount else 0,
                   DetailEnum(detailLevel),
                   if stored.Some? then MapCategoryToDocType(stored.value.category) else Prompts.Geral)
  }

  /** summarize_document, with `tree` what load_raptor_tree returns, `chunks`
      what get_document_chunks returns, `pages` empty for None, `stored` what
      get_document returns and `llm` the model's reply to the request. */
  function SummarizeDocument(tree: Option<Raptor.Tree>, pages: seq<int>, detailLevel: string,
                             chunks: seq<Rag.ChunkRecord>, stored: Option<DocumentMetadata>,
                             llm: SummaryRequest -> LlmReply): string
  {
    var fromTree := Chat.TreeSummary(tree, detailLevel);
    if fromTree != "" then fromTree
    else if |chunks| == 0 then Chat.NotIndexed
    else
      var combined := CombinedText(chunks, pages);
      match llm(RequestFor(combined, detailLevel, stored))
      case Completed(t) => t
      case Raised(_) => Take(combined, 500) + "..."
  }

  /** The formatted chunks of a document with chunks start with the first
      selected chunk's header. */
  lemma CombinedTextHeader(chunks: seq<Rag.ChunkRecord>, pages: seq<int>)
    requires |chunks| > 0
    ensures StartsWith(CombinedText(chunks, pages), "[Trecho 1 - Página ")
  {
    Chat.SelectChunksProperties(chunks, pages);
    Prompts.FormattedChunksStart(ChunkPassages(Chat.SelectChunks(chunks, pages)), 500);
  }

  /** The summary is the tree's whenever that is not empty; otherwise a
      document without chunks gets the fixed message; the model is asked with
      the stored title, page count and category (defaults "Documento", 0 and
      GERAL); and a failed call gets the first 500 characters of the
      formatted chunks and "...". */
  lemma SummarizeFallbacks(tree: Option<Raptor.Tree>, pages: seq<int>, detailLevel: string,
                           chunks: seq<Rag.ChunkRecord>, stored: Option<DocumentMetadata>,
                           llm: SummaryRequest -> LlmReply)
    ensures var r := SummarizeDocument(tree, pages, detailLevel, chunks, stored, llm);
            var combined := CombinedText(chunks, pages);
            var req := RequestFor(combined, detailLevel, stored);
            var reply := llm(req);
            var fromTree := Chat.TreeSummary(tree, detailLevel);
            (fromTree != "" ==> r == fromTree)
            && (fromTree == "" && |chunks| == 0 ==> r == Chat.NotIndexed)
            && (stored.None? ==> req.title == "Documento" && req.pageCount == 0 && req.docType == Prompts.Geral)
            && (fromTree == "" && |chunks| > 0 && reply.Completed? ==> r == reply.text)
            && (fromTree == "" && |chunks| > 0 && reply.Raised? ==>
                  EndsWith(r, "...") && StartsWith(r, Take(combined, 500)) && |r| <= 503)
  {
  }
}
