/** The deterministic rules of the first chat service: context assembly with
    whole-context truncation, prompt assembly with the history window, the
    sources of an answer, and the level choice, page filter and fallbacks of
    document summaries. The retrieval results, the loaded RAPTOR tree, the
    tokenizer and the chat model are parameters. */
module Chat {
  import opened Common
  import Rag
  import Raptor
  import Prompts

  const MaxContextTokens: nat := 16000

  /** (max_context_tokens - 500) * 4: the characters kept when the context is
      over the token budget. */
  const MaxContextChars: nat := (MaxContextTokens - 500) * 4

  const Apology: string := "Desculpe, não encontrei informações relevantes no documento."
  const NotIndexed: string := "Não foi possível gerar um resumo. Documento não indexado."
  const TruncationMarker: string := "\n\n[Contexto truncado devido ao limite de tokens]"

  // ---------------------------------------------------------------- build_context

  /** The whole-context rule: a context whose token count is over the budget
      keeps its first MaxContextChars characters and gets the marker; any
      other context is returned unchanged. */
  function LimitContext(full: string, tokens: nat, marker: string): (r: string)
    ensures tokens <= MaxContextTokens ==> r == full
    ensures tokens > MaxContextTokens ==>
              StartsWith(r, Take(full, MaxContextChars)) && EndsWith(r, marker)
              && |r| == Min(|full|, MaxContextChars) + |marker|
  {
    if tokens > MaxContextTokens then Take(full, MaxContextChars) + marker else full
  }

  /** The executive-summary part: present only when RAPTOR is on, a tree was
      loaded and its top-level summary is not empty. */
  function SummaryParts(useRaptor: bool, tree: Option<Raptor.Tree>): seq<string> {
    if useRaptor && tree.Some? && Raptor.GetRaptorSummary(tree.value, -1) != "" then
      ["RESUMO EXECUTIVO DO DOCUMENTO:\n" + Raptor.GetRaptorSummary(tree.value, -1) + "\n"]
    else []
  }

  function ChunkHeader(i: nat, hit: Rag.Hit): string {
    "\n[Trecho " + NatToString(i) + " - Página " + PageLabel(hit.metadata) + "]:"
  }

  /** The header and the text of each of the first n chunks. */
  function ChunkParts(chunks: seq<Rag.Hit>, n: nat): (r: seq<string>)
    requires n <= |chunks|
    ensures |r| == 2 * n
  {
    if n == 0 then [] else ChunkParts(chunks, n - 1) + [ChunkHeader(n, chunks[n - 1]), chunks[n - 1].text]
  }

  function ContextParts(chunks: seq<Rag.Hit>, useRaptor: bool, tree: Option<Raptor.Tree>): seq<string> {
    SummaryParts(useRaptor, tree) + ["TRECHOS RELEVANTES:\n"] + ChunkParts(chunks, |chunks|)
  }

  function Context(chunks: seq<Rag.Hit>, useRaptor: bool, tree: Option<Raptor.Tree>, countTokens: string -> nat): string {
    var full := Join("\n", ContextParts(chunks, useRaptor, tree));
    LimitContext(full, countTokens(full), TruncationMarker)
  }

  /** build_context, with the tokenizer as countTokens. */
  method BuildContext(query: string, chunks: seq<Rag.Hit>, useRaptor: bool, tree: Option<Raptor.Tree>,
                      countTokens: string -> nat) returns (context: string)
    ensures context == Context(chunks, useRaptor, tree, countTokens)
  {
    var parts: seq<string> := [];
    if useRaptor && tree.Some? {
      var summary := Raptor.GetRaptorSummary(tree.value, -1);
      if summary != "" {
        parts := parts + ["RESUMO EXECUTIVO DO DOCUMENTO:\n" + summary + "\n"];
      }
    }
    parts := parts + ["TRECHOS RELEVANTES:\n"];
    ghost var base := parts;
    assert base == SummaryParts(useRaptor, tree) + ["TRECHOS RELEVANTES:\n"];
    var i := 0;
    while i < |chunks|
      invariant 0 <= i <= |chunks|
      invariant parts == base + ChunkParts(chunks, i)
    {
      var page := PageLabel(chunks[i].metadata);
      parts := parts + ["\n[Trecho " + NatToString(i + 1) + " - Página " + page + "]:"];
      parts := parts + [chunks[i].text];
      assert parts == base + ChunkParts(chunks, i + 1);
      i := i + 1;
    }
    assert parts == ContextParts(chunks, useRaptor, tree);
    var full := Join("\n", parts);
    if countTokens(full) > MaxContextTokens {
      var maxChars := (MaxContextTokens - 500) * 4;
      full := Take(full, maxChars) + TruncationMarker;
    }
    context := full;
  }

  lemma {:induction false} ChunkPartsAt(chunks: seq<Rag.Hit>, n: nat, k: nat)
    requires k < n <= |chunks|
    ensures ChunkParts(chunks, n)[2 * k] == ChunkHeader(k + 1, chunks[k])
    ensures ChunkParts(chunks, n)[2 * k + 1] == chunks[k].text
    decreases n
  {
    if k < n - 1 {
      ChunkPartsAt(chunks, n - 1, k);
    }
  }

  /** The parts are the optional summary, one header line, then for each
      chunk in order its numbered header and its text. */
  lemma ContextShape(chunks: seq<Rag.Hit>, useRaptor: bool, tree: Option<Raptor.Tree>, k: nat)
    requires k < |chunks|
    ensures var parts := ContextParts(chunks, useRaptor, tree);
            var off := |SummaryParts(useRaptor, tree)| + 1;
            (off == 2 <==> useRaptor && tree.Some? && Raptor.GetRaptorSummary(tree.value, -1) != "")
            && off <= 2 && |parts| == off + 2 * |chunks|
            && parts[off - 1] == "TRECHOS RELEVANTES:\n"
            && parts[off + 2 * k] == ChunkHeader(k + 1, chunks[k])
            && parts[off + 2 * k + 1] == chunks[k].text
  {
    ChunkPartsAt(chunks, |chunks|, k);
  }

  // ---------------------------------------------------------------- build_prompt

  const Preamble: seq<string> := [
    "Você é um assistente especializado em responder perguntas sobre documentos PDF.",
    "Você deve responder baseando-se APENAS no contexto fornecido abaixo.",
    "Se a informação não estiver no contexto, diga que não encontrou a resposta.",
    "Seja claro, conciso e cite a página das informações quando possível.",
    "",
    "CONTEXTO DO DOCUMENTO:"
  ]

  /** One line per message, with the speaker label and the full content. */
  function HistoryParts(h: seq<Message>): (r: seq<string>)
    ensures |r| == |h|
  {
    seq(|h|, k requires 0 <= k < |h| => Prompts.RoleLabel(h[k].role) + ": " + h[k].content)
  }

  function PromptParts(query: string, context: string, history: seq<Message>): seq<string> {
    Preamble + [context, "", "HISTÓRICO DE CONVERSA:"] + HistoryParts(Last(history, 10))
      + ["\nPERGUNTA ATUAL:\n" + query, "\nRESPOSTA:"]
  }

  function PromptText(query: string, context: string, history: seq<Message>): string {
    Join("\n", PromptParts(query, context, history))
  }

  method BuildPrompt(query: string, context: string, history: seq<Message>) returns (prompt: string)
    ensures prompt == PromptText(query, context, history)
  {
    var parts := Preamble + [context, "", "HISTÓRICO DE CONVERSA:"];
    ghost var base := parts;
    var window := Last(history, 10);
    ghost var lines := HistoryParts(window);
    var i := 0;
    while i < |window|
      invariant 0 <= i <= |window|
      invariant parts == base + lines[..i]
    {
      var msg := window[i];
      var role := if msg.role == "user" then "USUÁRIO" else "ASSISTENTE";
      var line := role + ": " + msg.content;
      assert line == lines[i];
      SliceSnoc(lines, i);
      AppendSnoc(base, lines[..i], line);
      parts := parts + [line];
      i := i + 1;
    }
    assert lines[..i] == lines;
    parts := parts + ["\nPERGUNTA ATUAL:\n" + query];
    parts := parts + ["\nRESPOSTA:"];
    assert parts == PromptParts(query, context, history);
    prompt := Join("\n", parts);
  }

  /** The prompt holds the context after the six fixed lines, then the last
      (at most ten) messages in order with their speaker labels, then the
      question. */
  lemma PromptShape(query: string, context: string, history: seq<Message>)
    ensures var parts := PromptParts(query, context, history);
            var n := Min(10, |history|);
            |parts| == 11 + n && parts[6] == context
            && parts[9 + n] == "\nPERGUNTA ATUAL:\n" + query
            && forall k :: 0 <= k < n ==>
                 parts[9 + k] == Prompts.RoleLabel(Last(history, 10)[k].role) + ": " + Last(history, 10)[k].content
  {
  }

  /** Messages older than the last ten never reach the prompt. */
  lemma OlderMessagesDropped(query: string, context: string, older: seq<Message>, recent: seq<Message>)
    requires |recent| >= 10
    ensures PromptText(query, context, older + recent) == PromptText(query, context, recent)
  {
    assert Last(older + recent, 10) == Last(recent, 10);
  }

  // ---------------------------------------------------------------- chat

  /** One entry of the answer's sources. */
  datatype Source = Source(page: Json, score: real, snippet: string)

  datatype ChatResponse = ChatResponse(answer: string, sources: seq<Source>, raptorSummary: Option<string>)

  function SourceOf(hit: Rag.Hit): Source {
    Source(PageValue(hit.metadata), hit.score, Clip(hit.text, 200))
  }

  function Sources(results: seq<Rag.Hit>): (r: seq<Source>)
    ensures |r| == |results|
  {
    seq(|results|, k requires 0 <= k < |results| => SourceOf(results[k]))
  }

  method CollectSources(results: seq<Rag.Hit>) returns (sources: seq<Source>)
    ensures sources == Sources(results)
  {
    sources := [];
    var i := 0;
    while i < |results|
      invariant 0 <= i <= |results|
      invariant sources == Sources(results)[..i]
    {
      var chunk := results[i];
      var snippet := if |chunk.text| > 200 then chunk.text[..200] + "..." else chunk.text;
      assert Sources(results)[..i + 1] == sources + [Source(PageValue(chunk.metadata), chunk.score, snippet)];
      sources := sources + [Source(PageValue(chunk.metadata), chunk.score, snippet)];
      i := i + 1;
    }
    assert Sources(results)[..i] == Sources(results);
  }

  /** Each source carries its hit's page (or "N/A") and score, and a snippet
      that is the whole text up to 200 characters, else its first 200
      characters and "...". */
  lemma SourcesShape(results: seq<Rag.Hit>, k: nat)
    requires k < |results|
    ensures var s := Sources(results)[k];
            s.score == results[k].score
            && s.page == (if "page" in results[k].metadata then results[k].metadata["page"] else JStr("N/A"))
            && (|results[k].text| <= 200 ==> s.snippet == results[k].text)
            && (|results[k].text| > 200 ==> |s.snippet| == 203 && StartsWith(s.snippet, results[k].text[..200]))
  {
  }

  /** The answer text: the model's reply, or the error message. */
  function AnswerText(reply: LlmReply): string {
    match reply
    case Completed(t) => t
    case Raised(m) => "Erro ao processar sua pergunta: " + m
  }

  function RaptorSummaryOf(useRaptor: bool, tree: Option<Raptor.Tree>): Option<string> {
    if useRaptor && tree.Some? then Some(Raptor.GetRaptorSummary(tree.value, -1)) else None
  }

  /** chat, with `results` the hybrid_search answer for the query, `tree` what
      load_raptor_tree returns and `llm` the chat model's reply to a prompt. */
  method Chat(query: string, history: seq<Message>, useRaptor: bool, results: seq<Rag.Hit>,
              tree: Option<Raptor.Tree>, countTokens: string -> nat, llm: string -> LlmReply)
    returns (resp: ChatResponse)
    ensures |results| == 0 ==> resp == ChatResponse(Apology, [], None)
    ensures |results| > 0 ==>
              resp == ChatResponse(AnswerText(llm(PromptText(query, Context(results, useRaptor, tree, countTokens), history))),
                                   Sources(results), RaptorSummaryOf(useRaptor, tree))
  {
    if |results| == 0 {
      return ChatResponse(Apology, [], None);
    }
    var raptorSummary: Option<string> := None;
    var raptorTree: Option<Raptor.Tree> := None;
    if useRaptor {
      raptorTree := tree;
      if raptorTree.Some? {
        raptorSummary := Some(Raptor.GetRaptorSummary(raptorTree.value, -1));
      }
    }
    var context := BuildContext(query, results, useRaptor, raptorTree, countTokens);
    var prompt := BuildPrompt(query, context, history);
    var answer := AnswerText(llm(prompt));
    var sources := CollectSources(results);
    resp := ChatResponse(answer, sources, raptorSummary);
  }

  // ---------------------------------------------------------------- summarize_document

  /** {"brief": 2, "medium": 1, "detailed": 0}.get(detail_level, -1) */
  function LevelFor(detailLevel: string): int {
    if detailLevel == "brief" then 2
    else if detailLevel == "medium" then 1
    else if detailLevel == "detailed" then 0
    else -1
  }

  /** The requested level, lowered to the tree depth when it is deeper. */
  function TargetLevel(detailLevel: string, depth: int): (r: int)
    ensures r == Min(LevelFor(detailLevel), depth)
  {
    var target := LevelFor(detailLevel);
    if target > depth then depth else target
  }

  /** For a tree of depth d >= 0 the level actually read (-1 standing for
      the top) lies in [0, d], and is the requested one whenever that exists. */
  lemma TargetLevelInRange(detailLevel: string, depth: int)
    requires depth >= 0
    ensures var t := TargetLevel(detailLevel, depth);
            var effective := if t == -1 then depth else t;
            0 <= effective <= depth
            && (0 <= LevelFor(detailLevel) <= depth ==> effective == LevelFor(detailLevel))
            && (LevelFor(detailLevel) == -1 <==> detailLevel !in ["brief", "medium", "detailed"])
  {
  }

  /** Python's `value in pages` for a page metadata value (a bool compares
      equal to 0 or 1). */
  predicate PageIn(v: Json, pages: seq<int>) {
    match v
    case JInt(i) => i in pages
    case JBool(b) => (if b then 1 else 0) in pages
    case _ => false
  }

  predicate OnPages(c: Rag.ChunkRecord, pages: seq<int>) {
    "page" in c.metadata && PageIn(c.metadata["page"], pages)
  }

  /** [c for c in chunks if c["metadata"].get("page") in pages] */
  function FilterPages(chunks: seq<Rag.ChunkRecord>, pages: seq<int>): (r: seq<Rag.ChunkRecord>)
    ensures |r| <= |chunks|
    ensures forall j :: 0 <= j < |r| ==> r[j] in chunks && OnPages(r[j], pages)
    ensures forall i :: 0 <= i < |chunks| && OnPages(chunks[i], pages) ==> chunks[i] in r
    decreases |chunks|
  {
    if |chunks| == 0 then []
    else (if OnPages(chunks[0], pages) then [chunks[0]] else []) + FilterPages(chunks[1..], pages)
  }

  /** Each chunk on a requested page is kept as many times as it occurs, and
      no other chunk is kept. */
  lemma {:induction false} FilterPagesCount(chunks: seq<Rag.ChunkRecord>, pages: seq<int>, c: Rag.ChunkRecord)
    ensures multiset(FilterPages(chunks, pages))[c] == if OnPages(c, pages) then multiset(chunks)[c] else 0
    decreases |chunks|
  {
    if |chunks| > 0 {
      var x, t := chunks[0], chunks[1..];
      var head: seq<Rag.ChunkRecord> := if OnPages(x, pages) then [x] else [];
      var rest := FilterPages(t, pages);
      assert FilterPages(chunks, pages) == head + rest;
      assert multiset(head + rest) == multiset(head) + multiset(rest);
      assert chunks == [x] + t;
      assert multiset(chunks) == multiset([x]) + multiset(t);
      FilterPagesCount(t, pages, c);
    }
  }

  /** Filtering a concatenation filters each part and keeps the parts in
      order, so the kept chunks stay in the order of the input. */
  lemma {:induction false} FilterPagesAppend(a: seq<Rag.ChunkRecord>, b: seq<Rag.ChunkRecord>, pages: seq<int>)
    ensures FilterPages(a + b, pages) == FilterPages(a, pages) + FilterPages(b, pages)
    decreases |a|
  {
    if |a| == 0 {
      assert a + b == b;
    } else {
      var head: seq<Rag.ChunkRecord> := if OnPages(a[0], pages) then [a[0]] else [];
      assert (a + b)[0] == a[0];
      assert (a + b)[1..] == a[1..] + b;
      assert FilterPages(a + b, pages) == head + FilterPages(a[1..] + b, pages);
      FilterPagesAppend(a[1..], b, pages);
      assert FilterPages(a, pages) == head + FilterPages(a[1..], pages);
      AppendAssoc(head, FilterPages(a[1..], pages), FilterPages(b, pages));
    }
  }

  /** A single chunk is kept exactly when it is on a requested page. */
  lemma FilterPagesSingle(c: Rag.ChunkRecord, pages: seq<int>)
    ensures FilterPages([c], pages) == if OnPages(c, pages) then [c] else []
  {
    assert [c][1..] == [];
  }

  /** The chunks a summary reads: those on the requested pages (all of them
      when no page is requested), or the first ten when none is left. */
  function SelectChunks(chunks: seq<Rag.ChunkRecord>, pages: seq<int>): seq<Rag.ChunkRecord> {
    var filtered := if |pages| > 0 then FilterPages(chunks, pages) else chunks;
    if |filtered| == 0 then Take(chunks, 10) else filtered
  }

  lemma SelectChunksProperties(chunks: seq<Rag.ChunkRecord>, pages: seq<int>)
    ensures var s := SelectChunks(chunks, pages);
            (|chunks| > 0 ==> |s| > 0)
            && (pages == [] && |chunks| > 0 ==> s == chunks)
            && (|pages| > 0 && (forall i :: 0 <= i < |chunks| ==> !OnPages(chunks[i], pages)) ==> s == Take(chunks, 10))
            && (|pages| > 0 && (exists i :: 0 <= i < |chunks| && OnPages(chunks[i], pages)) ==>
                  (forall j :: 0 <= j < |s| ==> OnPages(s[j], pages))
                  && forall i :: 0 <= i < |chunks| && OnPages(chunks[i], pages) ==> chunks[i] in s)
            && |s| <= |chunks|
            && forall j :: 0 <= j < |s| ==> s[j] in chunks
  {
    var s := SelectChunks(chunks, pages);
    if |pages| == 0 {
      if |chunks| == 0 {
        assert s == Take(chunks, 10);
      } else {
        assert s == chunks;
      }
    } else {
      var f := FilterPages(chunks, pages);
      if |f| == 0 {
        assert s == Take(chunks, 10);
        assert forall i :: 0 <= i < |chunks| ==> !OnPages(chunks[i], pages);
        assert forall j :: 0 <= j < |s| ==> s[j] == chunks[j];
      } else {
        assert s == f;
        assert f[0] in chunks && OnPages(f[0], pages);
        var k :| 0 <= k < |chunks| && chunks[k] == f[0];
        assert OnPages(chunks[k], pages);
      }
    }
  }

  function Texts(chunks: seq<Rag.ChunkRecord>): (r: seq<string>)
    ensures |r| == |chunks|
  {
    seq(|chunks|, k requires 0 <= k < |chunks| => chunks[k].text)
  }

  function DetailPrompt(detailLevel: string): string {
    if detailLevel == "brief" then "um resumo breve (1-2 parágrafos)"
    else if detailLevel == "medium" then "um resumo detalhado (3-5 parágrafos)"
    else if detailLevel == "detailed" then "um resumo completo e abrangente"
    else "detalhada"
  }

  function SummaryPrompt(detailLevel: string, combined: string): string {
    "Resuma o seguinte documento de forma " + DetailPrompt(detailLevel) + ":\n\n" + combined + "\n\nRESUMO:"
  }

  /** The tree summary at the chosen level, "" when there is no tree. */
  function TreeSummary(tree: Option<Raptor.Tree>, detailLevel: string): string {
    if tree.Some? then Raptor.GetRaptorSummary(tree.value, TargetLevel(detailLevel, tree.value.depth)) else ""
  }

  /** summarize_document, with `tree` what load_raptor_tree returns, `chunks`
      what get_document_chunks returns, `pages` empty for None, and `llm` the
      chat model's reply to a prompt. */
  function SummarizeDocument(tree: Option<Raptor.Tree>, pages: seq<int>, detailLevel: string,
                             chunks: seq<Rag.ChunkRecord>, llm: string -> LlmReply): string {
    var fromTree := TreeSummary(tree, detailLevel);
    if fromTree != "" then fromTree
    else if |chunks| == 0 then NotIndexed
    else
      var combined := Join("\n\n", Texts(SelectChunks(chunks, pages)));
      match llm(SummaryPrompt(detailLevel, combined))
      case Completed(t) => t
      case Raised(_) => Take(combined, 500) + "..."
  }

  /** The summary is the tree's whenever that is not empty; otherwise a
      document without chunks gets the fixed message, and a failed model call
      gets the first 500 characters of the selected chunk texts and "...". */
  lemma SummarizeFallbacks(tree: Option<Raptor.Tree>, pages: seq<int>, detailLevel: string,
                           chunks: seq<Rag.ChunkRecord>, llm: string -> LlmReply)
    ensures var r := SummarizeDocument(tree, pages, detailLevel, chunks, llm);
            var combined := Join("\n\n", Texts(SelectChunks(chunks, pages)));
            var reply := llm(SummaryPrompt(detailLevel, combined));
            (TreeSummary(tree, detailLevel) != "" ==> r == TreeSummary(tree, detailLevel))
            && (TreeSummary(tree, detailLevel) == "" && |chunks| == 0 ==> r == NotIndexed)
            && (TreeSummary(tree, detailLevel) == "" && |chunks| > 0 && reply.Raised? ==>
                  EndsWith(r, "...") && StartsWith(r, Take(combined, 500)) && |r| <= 503)
            && (TreeSummary(tree, detailLevel) == "" && |chunks| > 0 && reply.Completed? ==> r == reply.text)
  {
  }
}
