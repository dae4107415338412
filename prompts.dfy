/** The deterministic helpers of the prompt manager: the response validator,
    the chunk formatter, the token estimate, the conversation-history window
    and the RAPTOR level descriptions. The prompt templates themselves are
    fixed text and are not modelled. */
module Prompts {
  import opened Common

  /** The prompt families, one per kind of document. */
  datatype DocType = Juridico | Financeiro | Tecnico | Geral

  /** How long a summary should be. */
  datatype DetailLevel = Brief | Medium | Detailed

  /** A retrieved passage as the prompt builders read it. */
  datatype Passage = Passage(text: string, metadata: map<string, Json>)

  // ---------------------------------------------------------------- validate_response

  /** The issues validate_response can raise, with their message texts. */
  datatype Issue = NoCitation | TooShort | OffTopic

  function IssueText(i: Issue): string {
    match i
    case NoCitation => "Resposta não cita páginas do documento"
    case TooShort => "Resposta muito curta"
    case OffTopic => "Resposta parece não responder à pergunta"
  }

  /** The warnings, the partial one carrying found / count. */
  datatype Warning = TooLong | Partial(found: nat, count: nat)

  function WarningText(w: Warning): string {
    match w
    case TooLong => "Resposta muito longa, considere resumir"
    case Partial(found, count) =>
      "Resposta parcial: " + NatToString(found) + "/" + NatToString(count) + " palavras-chave encontradas"
  }

  /** The quality grades, with their texts. */
  datatype Quality = Excelente | Boa | Aceitavel | Ruim

  function QualityText(q: Quality): string {
    match q
    case Excelente => "Excelente"
    case Boa => "Boa"
    case Aceitavel => "Aceitável"
    case Ruim => "Ruim"
  }

  /** The dictionary validate_response returns. */
  datatype Validation = Validation(valid: bool, quality: Quality, score: int, issues: seq<Issue>, warnings: seq<Warning>)

  /** The response cites a page: it contains "[Página", or its lower-cased
      form contains "página". */
  predicate CitesPage(response: string) {
    Contains(response, "[Página") || Contains(Lower(response), "página")
  }

  /** [w for w in words if len(w) > 3], in order. */
  function LongWords(words: seq<string>): (r: seq<string>)
    ensures |r| <= |words|
    ensures forall k :: 0 <= k < |r| ==> |r[k]| > 3 && r[k] in words
    ensures forall k :: 0 <= k < |words| && |words[k]| > 3 ==> words[k] in r
    decreases |words|
  {
    if |words| == 0 then []
    else (if |words[0]| > 3 then [words[0]] else []) + LongWords(words[1..])
  }

  /** The first three lower-cased query words longer than three characters. */
  function Keywords(query: string): seq<string> {
    Take(LongWords(Split(Lower(query))), 3)
  }

  /** sum(1 for k in keywords if k in text) */
  function CountFound(keywords: seq<string>, text: string): (n: nat)
    ensures n <= |keywords|
    ensures n == 0 <==> forall k :: 0 <= k < |keywords| ==> !Contains(text, keywords[k])
    decreases |keywords|
  {
    if |keywords| == 0 then 0
    else
      var rest := CountFound(keywords[1..], text);
      assert forall k :: 1 <= k < |keywords| ==> keywords[k] == keywords[1..][k - 1];
      (if Contains(text, keywords[0]) then 1 else 0) + rest
  }

  function Grade(score: int): Quality {
    if score >= 80 then Excelente
    else if score >= 60 then Boa
    else if score >= 40 then Aceitavel
    else Ruim
  }

  /** The verdict from the outcome of each check: whether a page is cited,
      the response length, the keywords found out of count, and whether there
      was context. 20 points for a citation, 20 for a length in [50, 2000],
      40 when at least half of the keywords occur, 20 for context. */
  function Assess(cites: bool, length: nat, found: nat, count: nat, hasContext: bool): Validation {
    var answers := 2 * found >= count;
    var score := (if cites then 20 else 0) + (if 50 <= length <= 2000 then 20 else 0)
      + (if answers then 40 else 0) + (if hasContext then 20 else 0);
    var issues := (if cites then [] else [NoCitation])
      + (if length < 50 then [TooShort] else [])
      + (if !answers && found == 0 then [OffTopic] else []);
    var warnings := (if length > 2000 then [TooLong] else [])
      + (if !answers && found != 0 then [Partial(found, count)] else []);
    Validation(|issues| == 0, Grade(score), score, issues, warnings)
  }

  function Validate(response: string, query: string, hasContext: bool): Validation {
    Assess(CitesPage(response), |response|, CountFound(Keywords(query), Lower(response)), |Keywords(query)|, hasContext)
  }

  /** The check-by-check procedure of validate_response, with the keyword
      test as the source writes it (a float comparison against half the count). */
  method ValidateResponse(response: string, query: string, chunks: seq<Passage>) returns (v: Validation)
    ensures v == Validate(response, query, |chunks| > 0)
  {
    var hasPageCitation := Contains(response, "[Página") || Contains(Lower(response), "página");
    var responseLower := Lower(response);
    var keywords := Take(LongWords(Split(Lower(query))), 3);
    var found := CountFound(keywords, responseLower);
    var saysNotFound := Contains(responseLower, "não encontrei");
    v := Checks(hasPageCitation, |response|, found, |keywords|, saysNotFound, |chunks| > 0);
  }

  /** The sequence of score, issue and warning updates, given what each check
      observed. */
  method Checks(hasPageCitation: bool, length: nat, found: nat, count: nat, saysNotFound: bool, hasChunks: bool)
    returns (v: Validation)
    ensures v == Assess(hasPageCitation, length, found, count, hasChunks)
  {
    var issues: seq<Issue> := [];
    var warnings: seq<Warning> := [];
    var score := 0;

    if !hasPageCitation {
      issues := issues + [NoCitation];
    } else {
      score := score + 20;
    }

    if length < 50 {
      issues := issues + [TooShort];
    } else if length > 2000 {
      warnings := warnings + [TooLong];
    } else {
      score := score + 20;
    }

    if found as real >= count as real * 0.5 {
      score := score + 40;
    } else if found == 0 {
      issues := issues + [OffTopic];
    } else {
      warnings := warnings + [Partial(found, count)];
    }

    if saysNotFound && hasChunks {
      score := score + 20;
    } else if hasChunks && !saysNotFound {
      score := score + 20;
    }

    var quality: Quality;
    if score >= 80 {
      quality := Excelente;
    } else if score >= 60 {
      quality := Boa;
    } else if score >= 40 {
      quality := Aceitavel;
    } else {
      quality := Ruim;
    }
    v := Validation(|issues| == 0, quality, score, issues, warnings);
  }

  /** What the validator's checks promise: each issue and warning appears
      exactly when its check fails, and the response is valid exactly when it
      cites a page, has at least 50 characters and does not miss every keyword. */
  lemma AssessChecks(cites: bool, length: nat, found: nat, count: nat, hasContext: bool)
    requires found <= count
    ensures var v := Assess(cites, length, found, count, hasContext);
            (v.valid <==> cites && length >= 50 && !(count > 0 && found == 0))
            && (NoCitation in v.issues <==> !cites)
            && (TooShort in v.issues <==> length < 50)
            && (OffTopic in v.issues <==> count > 0 && found == 0)
            && (TooLong in v.warnings <==> length > 2000)
            && (Partial(found, count) in v.warnings <==> found > 0 && 2 * found < count)
            && |v.issues| <= 3 && |v.warnings| <= 2
  {
    var v := Assess(cites, length, found, count, hasContext);
    var answers := 2 * found >= count;
    var i1: seq<Issue> := if cites then [] else [NoCitation];
    var i2: seq<Issue> := if length < 50 then [TooShort] else [];
    var i3: seq<Issue> := if !answers && found == 0 then [OffTopic] else [];
    var w1: seq<Warning> := if length > 2000 then [TooLong] else [];
    var w2: seq<Warning> := if !answers && found != 0 then [Partial(found, count)] else [];
    assert v.issues == i1 + i2 + i3 && v.warnings == w1 + w2;
    assert NoCitation in v.issues <==> NoCitation in i1;
    assert TooShort in v.issues <==> TooShort in i2;
    assert OffTopic in v.issues <==> OffTopic in i3;
    assert TooLong in v.warnings <==> TooLong in w1;
    assert Partial(found, count) in v.warnings <==> Partial(found, count) in w2;
  }

  /** What the validator's score promises: a multiple of 20 in [0, 100], full
      marks exactly when every check passes, at most 80 without context, at
      least 40 when half the keywords are found; and the grade bands. */
  lemma AssessScore(cites: bool, length: nat, found: nat, count: nat, hasContext: bool)
    ensures var v := Assess(cites, length, found, count, hasContext);
            v.score % 20 == 0 && 0 <= v.score <= 100
    ensures var v := Assess(cites, length, found, count, hasContext);
            (v.score == 100 <==> cites && 50 <= length <= 2000 && 2 * found >= count && hasContext)
            && (!hasContext ==> v.score <= 80)
            && (2 * found >= count ==> v.score >= 40)
    ensures var v := Assess(cites, length, found, count, hasContext);
            (v.quality == Excelente <==> v.score >= 80)
            && (v.quality == Boa <==> 60 <= v.score < 80)
            && (v.quality == Aceitavel <==> 40 <= v.score < 60)
            && (v.quality == Ruim <==> v.score < 40)
  {
    var v := Assess(cites, length, found, count, hasContext);
    assert v.quality == Grade(v.score);
  }

  /** The same verdict for a concrete response: validity from the citation,
      the length and the keywords of the query; with no keyword in the query
      the keyword check always passes. */
  lemma ValidateProperties(response: string, query: string, hasContext: bool)
    ensures var v := Validate(response, query, hasContext);
            var kws := Keywords(query);
            v.score % 20 == 0 && 0 <= v.score <= 100
            && |kws| <= 3
            && (v.valid <==> CitesPage(response) && |response| >= 50
                             && !(|kws| > 0 && forall k :: 0 <= k < |kws| ==> !Contains(Lower(response), kws[k])))
    ensures Keywords(query) == [] ==> OffTopic !in Validate(response, query, hasContext).issues
  {
    var kws := Keywords(query);
    AssessChecks(CitesPage(response), |response|, CountFound(kws, Lower(response)), |kws|, hasContext);
    AssessScore(CitesPage(response), |response|, CountFound(kws, Lower(response)), |kws|, hasContext);
  }

  // ---------------------------------------------------------------- format_chunks_for_prompt

  /** `text[:n] + "..." if len(text) > n else text`, for any integer n. */
  function Cut(text: string, n: int): (r: string)
    ensures n >= 0 ==> r == Clip(text, n)
    ensures n < 0 ==> r == SliceTo(text, n) + "..."
  {
    if |text| > n then SliceTo(text, n) + "..." else text
  }

  /** The block for the i-th passage (i counted from 1). */
  function Block(i: nat, c: Passage, maxPerChunk: int): string {
    "[Trecho " + NatToString(i) + BlockTail(c, maxPerChunk)
  }

  /** What follows the number in a block: the page label and the cut text. */
  function BlockTail(c: Passage, maxPerChunk: int): (r: string)
    ensures |r| > 0 && r[0] == ' '
  {
    " - Página " + PageLabel(c.metadata) + "]\n" + Cut(c.text, maxPerChunk)
  }

  function Blocks(chunks: seq<Passage>, maxPerChunk: int): (r: seq<string>)
    ensures |r| == |chunks|
  {
    seq(|chunks|, k requires 0 <= k < |chunks| => Block(k + 1, chunks[k], maxPerChunk))
  }

  function FormattedChunks(chunks: seq<Passage>, maxPerChunk: int): string {
    Join("\n\n", Blocks(chunks, maxPerChunk))
  }

  method FormatChunksForPrompt(chunks: seq<Passage>, maxPerChunk: int) returns (r: string)
    ensures r == FormattedChunks(chunks, maxPerChunk)
  {
    var formatted: seq<string> := [];
    var i := 0;
    while i < |chunks|
      invariant 0 <= i <= |chunks|
      invariant |formatted| == i
      invariant forall k :: 0 <= k < i ==> formatted[k] == Block(k + 1, chunks[k], maxPerChunk)
    {
      var page := PageLabel(chunks[i].metadata);
      var text := chunks[i].text;
      if |text| > maxPerChunk {
        text := SliceTo(text, maxPerChunk) + "...";
      }
      assert text == Cut(chunks[i].text, maxPerChunk);
      var block := "[Trecho " + NatToString(i + 1) + (" - Página " + page + "]\n" + text);
      assert block == Block(i + 1, chunks[i], maxPerChunk);
      formatted := formatted + [block];
      i := i + 1;
    }
    assert formatted == Blocks(chunks, maxPerChunk);
    r := Join("\n\n", formatted);
  }

  /** "[Trecho {i} - Página {page}]\n", the part of a block before the text. */
  function BlockHeader(i: nat, c: Passage): string {
    "[Trecho " + NatToString(i) + " - Página " + PageLabel(c.metadata) + "]\n"
  }

  lemma BlockSplit(i: nat, c: Passage, maxPerChunk: int)
    ensures Block(i, c, maxPerChunk) == BlockHeader(i, c) + Cut(c.text, maxPerChunk)
  {
    var n, page, cut := NatToString(i), PageLabel(c.metadata), Cut(c.text, maxPerChunk);
    var t := " - Página " + page + "]\n";
    assert BlockTail(c, maxPerChunk) == t + cut;
    AppendAssoc("[Trecho " + n, t, cut);
    AppendAssoc("[Trecho " + n, " - Página " + page, "]\n");
    AppendAssoc("[Trecho " + n, " - Página ", page);
  }

  /** Each block starts with its 1-based number and page label and carries the
      passage text, cut to max_per_chunk characters plus "..." when longer. */
  lemma FormattedChunksShape(chunks: seq<Passage>, maxPerChunk: nat, i: nat)
    requires i < |chunks|
    ensures var header := BlockHeader(i + 1, chunks[i]);
            var b := Blocks(chunks, maxPerChunk)[i];
            StartsWith(b, header)
            && (|chunks[i].text| <= maxPerChunk ==> b[|header|..] == chunks[i].text)
            && (|chunks[i].text| > maxPerChunk ==>
                  |b| == |header| + maxPerChunk + 3 && b[|header|..|header| + maxPerChunk] == chunks[i].text[..maxPerChunk])
  {
    var header := BlockHeader(i + 1, chunks[i]);
    var cut := Cut(chunks[i].text, maxPerChunk);
    BlockSplit(i + 1, chunks[i], maxPerChunk);
    StartsWithAppended(header, cut);
    DropAppended(header, cut);
    if |chunks[i].text| > maxPerChunk {
      assert (header + cut)[|header|..|header| + maxPerChunk] == cut[..maxPerChunk];
    }
  }

  /** The formatted text of at least one passage is not empty and starts with
      the first block, itself starting with "[Trecho 1 - Página ". */
  lemma FormattedChunksStart(chunks: seq<Passage>, maxPerChunk: int)
    requires |chunks| > 0
    ensures StartsWith(FormattedChunks(chunks, maxPerChunk), Blocks(chunks, maxPerChunk)[0])
    ensures StartsWith(FormattedChunks(chunks, maxPerChunk), "[Trecho 1 - Página ")
    ensures |FormattedChunks(chunks, maxPerChunk)| > 0
  {
    var blocks := Blocks(chunks, maxPerChunk);
    JoinFirst("\n\n", blocks);
    assert blocks[0] == Block(1, chunks[0], maxPerChunk);
    FirstBlockStart(chunks[0], maxPerChunk);
    assert "[Trecho " + NatToString(1) + " - Página " == "[Trecho 1 - Página " by {
      assert NatToString(1) == "1";
    }
    StartsWithTrans(FormattedChunks(chunks, maxPerChunk), blocks[0], "[Trecho 1 - Página ");
  }

  /** The first block starts with "[Trecho 1 - Página ", its number written out. */
  lemma FirstBlockStart(c: Passage, maxPerChunk: int)
    ensures StartsWith(Block(1, c, maxPerChunk), "[Trecho " + NatToString(1) + " - Página ")
  {
    var page, cut := PageLabel(c.metadata), Cut(c.text, maxPerChunk);
    var pre := " - Página ";
    var tail := BlockTail(c, maxPerChunk);
    StartsWithAppended(pre + page + "]\n", cut);
    StartsWithAppended(pre + page, "]\n");
    StartsWithAppended(pre, page);
    StartsWithTrans(tail, pre + page + "]\n", pre + page);
    StartsWithTrans(tail, pre + page, pre);
    StartsWithPrepend("[Trecho " + NatToString(1), tail, pre);
  }

  /** Block numbers tell blocks apart: blocks at different positions differ. */
  lemma BlocksNumbered(chunks: seq<Passage>, maxPerChunk: int, i: nat, j: nat)
    requires i < |chunks| && j < |chunks|
    requires Blocks(chunks, maxPerChunk)[i] == Blocks(chunks, maxPerChunk)[j]
    ensures i == j
  {
    BlockDigits(chunks, maxPerChunk, i);
    BlockDigits(chunks, maxPerChunk, j);
    NumberThenText(i + 1, j + 1, BlockTail(chunks[i], maxPerChunk), BlockTail(chunks[j], maxPerChunk));
  }

  /** After "[Trecho " a block holds its number and then its tail. */
  lemma BlockDigits(chunks: seq<Passage>, maxPerChunk: int, i: nat)
    requires i < |chunks|
    ensures Blocks(chunks, maxPerChunk)[i][8..] == NatToString(i + 1) + BlockTail(chunks[i], maxPerChunk)
  {
    var x := BlockTail(chunks[i], maxPerChunk);
    assert Blocks(chunks, maxPerChunk)[i] == "[Trecho " + NatToString(i + 1) + x;
    BlockAfterLabel(i + 1, x);
  }

  lemma BlockAfterLabel(i: nat, tail: string)
    ensures ("[Trecho " + NatToString(i) + tail)[8..] == NatToString(i) + tail
  {
    assert "[Trecho " + NatToString(i) + tail == "[Trecho " + (NatToString(i) + tail);
  }

  // ---------------------------------------------------------------- estimate_tokens

  /** len(text) // 4 */
  function EstimateTokens(text: string): (r: nat)
    ensures 4 * r <= |text| < 4 * r + 4
  {
    |text| / 4
  }

  // ---------------------------------------------------------------- history window

  const HistoryHeader: string := "\n\nHistórico de conversa (últimas 10 trocas):\n"

  /** The speaker label: USUÁRIO for the user, ASSISTENTE for anything else. */
  function RoleLabel(role: string): (r: string)
    ensures r == "USUÁRIO" <==> role == "user"
    ensures r == "ASSISTENTE" <==> role != "user"
  {
    if role == "user" then "USUÁRIO" else "ASSISTENTE"
  }

  function HistoryLine(m: Message): string {
    RoleLabel(m.role) + ": " + Take(m.content, 500) + "\n"
  }

  function HistoryLines(h: seq<Message>): (r: seq<string>)
    ensures |r| == |h|
  {
    seq(|h|, k requires 0 <= k < |h| => HistoryLine(h[k]))
  }

  /** The history block of the chain-of-thought and few-shot prompts: nothing
      for an empty history, else a header and one line per message among the
      last ten, each cut to 500 characters. */
  function HistoryText(history: seq<Message>): string {
    if |history| == 0 then "" else HistoryHeader + Concat(HistoryLines(Last(history, 10)))
  }

  method FormatHistory(history: seq<Message>) returns (text: string)
    ensures text == HistoryText(history)
  {
    text := "";
    if |history| > 0 {
      text := HistoryHeader;
      var window := Last(history, 10);
      ghost var lines := HistoryLines(window);
      var i := 0;
      while i < |window|
        invariant 0 <= i <= |window|
        invariant text == HistoryHeader + Concat(lines[..i])
      {
        var msg := window[i];
        var role := if msg.role == "user" then "USUÁRIO" else "ASSISTENTE";
        var content := Take(msg.content, 500);
        var line := role + ": " + content + "\n";
        assert line == lines[i];
        ConcatStep(HistoryHeader, lines, i);
        text := text + line;
        i := i + 1;
      }
      assert lines[..i] == lines;
    }
  }

  /** Only the last ten messages matter: messages older than those are
      dropped from the prompt. */
  lemma OlderHistoryIgnored(older: seq<Message>, recent: seq<Message>)
    requires |recent| >= 10
    ensures HistoryText(older + recent) == HistoryText(recent)
  {
    assert Last(older + recent, 10) == Last(recent, 10);
  }

  /** The newest message is always the last line of the history block. */
  lemma NewestMessageLast(history: seq<Message>)
    requires |history| > 0
    ensures EndsWith(HistoryText(history), HistoryLine(history[|history| - 1]))
  {
    var w := Last(history, 10);
    assert w[|w| - 1] == history[|history| - 1];
    ConcatEndsWithLast(HistoryHeader, HistoryLines(w));
  }

  // ---------------------------------------------------------------- RAPTOR level descriptions

  /** RAPTOR_LEVEL_DESCRIPTIONS.get(level, f"nível {level} de síntese"). The
      texts are written as ordinal + rest so that their first word is a short
      literal. */
  function LevelDescription(level: int): string {
    if level == 1 then "primeiro" + " nível de síntese (agrupando trechos relacionados)"
    else if level == 2 then "segundo" + " nível de síntese (criando temas abstratos)"
    else if level == 3 then "terceiro" + " nível de síntese (desenvolvendo conceitos de alto nível)"
    else if level == 4 then "quarto" + " nível de síntese (criando resumo executivo final)"
    else "nível " + IntToString(level) + " de síntese"
  }

  /** The first character of each description: the ordinal's initial for
      levels 1 to 4, 'n' for the generic one. */
  lemma LevelDescriptionInitial(level: int)
    ensures |LevelDescription(level)| > 6
    ensures var c := LevelDescription(level)[0];
            (level == 1 ==> c == 'p') && (level == 2 ==> c == 's') && (level == 3 ==> c == 't')
            && (level == 4 ==> c == 'q') && (!(1 <= level <= 4) ==> c == 'n')
  {
    IntToStringSign(level);
  }

  /** Levels 1 to 4 have their own descriptions; every other level gets the
      generic one, and different levels are always described differently. */
  lemma LevelDescriptionInjective(a: int, b: int)
    requires LevelDescription(a) == LevelDescription(b)
    ensures a == b
  {
    LevelDescriptionInitial(a);
    LevelDescriptionInitial(b);
    if !(1 <= a <= 4) && !(1 <= b <= 4) {
      var da, db := LevelDescription(a), LevelDescription(b);
      IntToStringSign(a);
      assert da[6..|da| - 11] == IntToString(a);
      assert db[6..|db| - 11] == IntToString(b);
      IntToStringInjective(a, b);
    }
  }

  lemma LevelDescriptionGeneric(level: int)
    ensures !(1 <= level <= 4) <==> StartsWith(LevelDescription(level), "nível ")
  {
    LevelDescriptionInitial(level);
  }
}
