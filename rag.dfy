/** The hybrid retrieval store of app/rag_service.py: chunk texts and metadata
    keyed by "<document>_<i>", the ordered id list that maps FAISS positions
    back to ids, and the number of vectors in the (append-only) FAISS index.
    Embeddings and the FAISS search itself are oracles: a search is given as
    the sequence of (position, score) pairs it returned. */
module Rag {
  import opened Common
  import opened Ranking

  /** Defaults from app/config.py. */
  const TopKResults: nat := 5
  const RrfK: nat := 60
  const WeightVector: real := 0.7
  const WeightKeyword: real := 0.3

  /** One input chunk: {"text": ..., "page": ..., "metadata": {...}}. */
  datatype Chunk = Chunk(text: string, page: Json, extra: map<string, Json>)

  /** documents_metadata[id] == {"text": ..., "metadata": ...} */
  datatype Entry = Entry(text: string, metadata: map<string, Json>)

  /** One record of hybrid_search. */
  datatype Hit = Hit(id: string, text: string, metadata: map<string, Json>, score: real)

  /** One record of get_document_chunks. */
  datatype ChunkRecord = ChunkRecord(id: string, text: string, metadata: map<string, Json>)

  // ---------------------------------------------------------------- ids

  /** f"{document_id}_{i}" */
  function ChunkId(documentId: string, i: nat): string {
    documentId + "_" + NatToString(i)
  }

  lemma ChunkIdInjective(documentId: string, i: nat, j: nat)
    requires i != j
    ensures ChunkId(documentId, i) != ChunkId(documentId, j)
  {
    SuffixNumberInjective(documentId + "_", i, j);
  }

  lemma ChunkIdPrefix(documentId: string, i: nat)
    ensures StartsWith(ChunkId(documentId, i), documentId)
  {
    assert ChunkId(documentId, i)[..|documentId|] == documentId;
  }

  /** [f"{document_id}_{i}" for i in range(n)] */
  function ChunkIds(documentId: string, n: nat): (r: seq<string>)
    ensures |r| == n
    ensures forall i :: 0 <= i < n ==> r[i] == ChunkId(documentId, i)
    decreases n
  {
    if n == 0 then [] else ChunkIds(documentId, n - 1) + [ChunkId(documentId, n - 1)]
  }

  /** The metadata stored for chunk i: the four computed fields, then the
      chunk's own "metadata" entries, which win on a clash (`{..., **extra}`). */
  function ChunkMetadata(documentId: string, c: Chunk, i: nat): (m: map<string, Json>)
    ensures "document_id" in m && "page" in m && "chunk_index" in m && "text_length" in m
    ensures forall key :: key in c.extra ==> key in m && m[key] == c.extra[key]
    ensures "document_id" !in c.extra ==> m["document_id"] == JStr(documentId)
    ensures "page" !in c.extra ==> m["page"] == c.page
    ensures "chunk_index" !in c.extra ==> m["chunk_index"] == JInt(i)
    ensures "text_length" !in c.extra ==> m["text_length"] == JInt(|c.text|)
  {
    map["document_id" := JStr(documentId), "page" := c.page,
        "chunk_index" := JInt(i), "text_length" := JInt(|c.text|)] + c.extra
  }

  function ChunkEntry(documentId: string, chunks: seq<Chunk>, i: nat): Entry
    requires i < |chunks|
  {
    Entry(chunks[i].text, ChunkMetadata(documentId, chunks[i], i))
  }

  /** The metadata map after storing the first n chunks of add_documents. */
  function StoreChunks(m: map<string, Entry>, documentId: string, chunks: seq<Chunk>, n: nat): map<string, Entry>
    requires n <= |chunks|
    decreases n
  {
    if n == 0 then m
    else StoreChunks(m, documentId, chunks, n - 1)[ChunkId(documentId, n - 1) := ChunkEntry(documentId, chunks, n - 1)]
  }

  /** add_documents stores chunk i under its own id, and leaves every other key
      as it was. */
  lemma {:induction false} StoreChunksAt(m: map<string, Entry>, documentId: string, chunks: seq<Chunk>, n: nat, key: string)
    requires n <= |chunks|
    ensures key in StoreChunks(m, documentId, chunks, n) <==> key in m || key in ChunkIds(documentId, n)
    ensures forall i :: 0 <= i < n && key == ChunkId(documentId, i) ==>
              StoreChunks(m, documentId, chunks, n)[key] == ChunkEntry(documentId, chunks, i)
    ensures key in m && key !in ChunkIds(documentId, n) ==> StoreChunks(m, documentId, chunks, n)[key] == m[key]
    decreases n
  {
    if n > 0 {
      StoreChunksAt(m, documentId, chunks, n - 1, key);
      assert ChunkIds(documentId, n) == ChunkIds(documentId, n - 1) + [ChunkId(documentId, n - 1)];
      forall i | 0 <= i < n - 1 && key == ChunkId(documentId, i)
        ensures key != ChunkId(documentId, n - 1)
      {
        ChunkIdInjective(documentId, i, n - 1);
      }
    }
  }

  // ---------------------------------------------------------------- list operations of delete_document

  /** [x for x in l if x.startswith(prefix)] */
  function Prefixed(l: seq<string>, prefix: string): (r: seq<string>)
    ensures forall x :: x in r <==> x in l && StartsWith(x, prefix)
    decreases |l|
  {
    if |l| == 0 then []
    else (if StartsWith(l[0], prefix) then [l[0]] else []) + Prefixed(l[1..], prefix)
  }

  /** [x for x in l if not x.startswith(prefix)] */
  function Unprefixed(l: seq<string>, prefix: string): (r: seq<string>)
    ensures forall x :: x in r <==> x in l && !StartsWith(x, prefix)
    decreases |l|
  {
    if |l| == 0 then []
    else (if StartsWith(l[0], prefix) then [] else [l[0]]) + Unprefixed(l[1..], prefix)
  }

  /** l with every element of xs taken out, the rest in order. */
  function Without(l: seq<string>, xs: seq<string>): (r: seq<string>)
    ensures |r| <= |l|
    ensures forall x :: x in r <==> x in l && x !in xs
    ensures Distinct(l) ==> Distinct(r)
    decreases |l|
  {
    if |l| == 0 then []
    else
      var rest := Without(l[1..], xs);
      assert Distinct(l) ==> Distinct(l[1..]) && l[0] !in l[1..];
      (if l[0] in xs then [] else [l[0]]) + rest
  }

  /** list.remove(x): drops the first occurrence. */
  function RemoveFirst(s: seq<string>, x: string): seq<string>
    decreases |s|
  {
    if |s| == 0 then []
    else if s[0] == x then s[1..]
    else [s[0]] + RemoveFirst(s[1..], x)
  }

  lemma {:induction false} WithoutNothing(l: seq<string>)
    ensures Without(l, []) == l
    decreases |l|
  {
    if |l| > 0 {
      WithoutNothing(l[1..]);
      assert l == [l[0]] + l[1..];
    }
  }

  lemma {:induction false} WithoutExt(l: seq<string>, xs: seq<string>, ys: seq<string>)
    requires forall y :: y in l ==> (y in xs <==> y in ys)
    ensures Without(l, xs) == Without(l, ys)
    decreases |l|
  {
    if |l| > 0 {
      WithoutExt(l[1..], xs, ys);
    }
  }

  /** On a duplicate-free list, removing the ids one at a time is the same as
      filtering them all out. */
  lemma {:induction false} RemoveFirstWithout(l: seq<string>, xs: seq<string>, x: string)
    requires Distinct(l)
    ensures RemoveFirst(Without(l, xs), x) == Without(l, xs + [x])
    decreases |l|
  {
    if |l| > 0 {
      var rest, ys := l[1..], xs + [x];
      assert Distinct(rest) && l[0] !in rest;
      if l[0] in xs {
        assert Without(l, xs) == Without(rest, xs);
        assert Without(l, ys) == Without(rest, ys);
        RemoveFirstWithout(rest, xs, x);
      } else if l[0] == x {
        var w := Without(rest, xs);
        assert Without(l, xs) == [x] + w;
        assert ([x] + w)[1..] == w;
        assert Without(l, ys) == Without(rest, ys);
        WithoutExt(rest, xs, ys);
      } else {
        var w := Without(rest, xs);
        assert Without(l, xs) == [l[0]] + w;
        assert ([l[0]] + w)[1..] == w;
        assert Without(l, ys) == [l[0]] + Without(rest, ys);
        RemoveFirstWithout(rest, xs, x);
      }
    }
  }

  lemma {:induction false} WithoutPrefixed(l: seq<string>, xs: seq<string>, prefix: string)
    requires forall y :: y in l ==> (y in xs <==> StartsWith(y, prefix))
    ensures Without(l, xs) == Unprefixed(l, prefix)
    decreases |l|
  {
    if |l| > 0 {
      WithoutPrefixed(l[1..], xs, prefix);
    }
  }

  // ---------------------------------------------------------------- vector search

  /** The FAISS position -> id step of vector_search: a position is kept only
      when it is below len(doc_ids_list). */
  function Resolve(ids: seq<string>, hits: seq<(nat, real)>): (r: seq<Scored>)
    ensures |r| <= |hits|
    ensures forall j :: 0 <= j < |r| ==> r[j].id in ids
    ensures (forall i :: 0 <= i < |hits| ==> hits[i].0 < |ids|) ==>
              |r| == |hits| && forall j :: 0 <= j < |r| ==> r[j] == Scored(ids[hits[j].0], hits[j].1)
    decreases |hits|
  {
    if |hits| == 0 then []
    else
      var prev := Resolve(ids, hits[..|hits| - 1]);
      var h := hits[|hits| - 1];
      if h.0 < |ids| then prev + [Scored(ids[h.0], h.1)] else prev
  }

  // ---------------------------------------------------------------- keyword search

  /** The relevance one query term adds to a (lower-cased) text. */
  function TermScore(term: string, text: string): real {
    if Contains(text, term) then
      1.0 + (if Contains(" " + text + " ", " " + term + " ") then 0.5 else 0.0)
    else 0.0
  }

  /** The sum of the term scores, repeated terms counted each time. */
  function QueryScore(terms: seq<string>, text: string): (r: real)
    ensures r >= 0.0
    ensures r > 0.0 <==> exists k :: 0 <= k < |terms| && Contains(text, terms[k])
    decreases |terms|
  {
    if |terms| == 0 then 0.0
    else
      var init := terms[..|terms| - 1];
      assert forall k :: 0 <= k < |terms| - 1 ==> init[k] == terms[k];
      QueryScore(init, text) + TermScore(terms[|terms| - 1], text)
  }

  /** The scoring loop of keyword_search for one stored text. */
  method ScoreText(terms: seq<string>, text: string) returns (score: real)
    ensures score == QueryScore(terms, text)
  {
    score := 0.0;
    var t := 0;
    while t < |terms|
      invariant 0 <= t <= |terms|
      invariant score == QueryScore(terms[..t], text)
    {
      var term := terms[t];
      if Contains(text, term) {
        score := score + 1.0;
        if Contains(" " + text + " ", " " + term + " ") {
          score := score + 0.5;
        }
      }
      assert terms[..t + 1][..t] == terms[..t];
      t := t + 1;
    }
    assert terms[..t] == terms;
  }

  /** The ids (in dict order) that pass the document filter and score above 0,
      with their raw scores. */
  function Candidates(ids: seq<string>, m: map<string, Entry>, terms: seq<string>, documentId: string): (r: seq<Scored>)
    requires forall i :: 0 <= i < |ids| ==> ids[i] in m
    ensures forall j :: 0 <= j < |r| ==>
              r[j].id in ids && r[j].id in m && StartsWith(r[j].id, documentId)
              && r[j].score == QueryScore(terms, Lower(m[r[j].id].text)) && r[j].score > 0.0
    decreases |ids|
  {
    if |ids| == 0 then []
    else
      var init := ids[..|ids| - 1];
      var prev := Candidates(init, m, terms, documentId);
      var id := ids[|ids| - 1];
      var s := QueryScore(terms, Lower(m[id].text));
      assert forall x :: x in init ==> x in ids;
      if StartsWith(id, documentId) && s > 0.0 then prev + [Scored(id, s)] else prev
  }

  /** Every id that passes the filter and scores above 0 is a candidate. */
  lemma {:induction false} CandidatesComplete(ids: seq<string>, m: map<string, Entry>, terms: seq<string>, documentId: string, i: nat)
    requires forall k :: 0 <= k < |ids| ==> ids[k] in m
    requires i < |ids| && StartsWith(ids[i], documentId) && QueryScore(terms, Lower(m[ids[i]].text)) > 0.0
    ensures ids[i] in Ids(Candidates(ids, m, terms, documentId))
    decreases |ids|
  {
    var init := ids[..|ids| - 1];
    var prev := Candidates(init, m, terms, documentId);
    var r := Candidates(ids, m, terms, documentId);
    if i < |ids| - 1 {
      CandidatesComplete(init, m, terms, documentId, i);
      var j :| 0 <= j < |prev| && Ids(prev)[j] == ids[i];
      assert r[j] == prev[j];
      assert Ids(r)[j] == ids[i];
    } else {
      assert r == prev + [Scored(ids[i], QueryScore(terms, Lower(m[ids[i]].text)))];
      assert Ids(r)[|prev|] == ids[i];
    }
  }

  /** Normalise by the maximum, sort descending, keep the first top_k. */
  function KeywordRanking(cands: seq<Scored>, topK: nat): seq<Scored>
    requires forall j :: 0 <= j < |cands| ==> cands[j].score > 0.0
  {
    if |cands| == 0 then []
    else Take(SortDesc(Normalize(cands, MaxScore(cands)), ScoreOf), topK)
  }

  /** The promise of keyword_search: at most top_k results, non-increasing,
      every score in (0, 1], the first exactly 1, each a candidate's id. */
  lemma KeywordRankingShape(cands: seq<Scored>, topK: nat)
    requires forall j :: 0 <= j < |cands| ==> cands[j].score > 0.0
    ensures |KeywordRanking(cands, topK)| == Min(topK, |cands|)
    ensures NonIncreasing(KeywordRanking(cands, topK), ScoreOf)
    ensures forall j :: 0 <= j < |KeywordRanking(cands, topK)| ==>
              0.0 < KeywordRanking(cands, topK)[j].score <= 1.0
              && KeywordRanking(cands, topK)[j].id in Ids(cands)
    ensures topK > 0 && |cands| > 0 ==> KeywordRanking(cands, topK)[0].score == 1.0
  {
    if |cands| > 0 {
      var s := Normalize(cands, MaxScore(cands));
      NormalizeBounds(cands);
      assert Ids(s) == Ids(cands);
      SortedTop(s);
      var sorted := SortDesc(s, ScoreOf);
      var r := Take(sorted, topK);
      assert r == KeywordRanking(cands, topK);
      TakeSorted(sorted, topK, ScoreOf);
      forall j | 0 <= j < |r| ensures 0.0 < r[j].score <= 1.0 && r[j].id in Ids(cands) {
        assert r[j] == sorted[j];
      }
    }
  }

  /** What keyword_search returns: at most top_k stored ids that pass the
      document filter, non-increasing, in (0, 1], the first exactly 1. */
  lemma KeywordSearchShape(cands: seq<Scored>, m: map<string, Entry>, documentId: string, topK: nat)
    requires forall j :: 0 <= j < |cands| ==> cands[j].score > 0.0 && cands[j].id in m && StartsWith(cands[j].id, documentId)
    ensures var r := KeywordRanking(cands, topK);
      |r| <= topK
      && NonIncreasing(r, ScoreOf)
      && (forall j :: 0 <= j < |r| ==> 0.0 < r[j].score <= 1.0 && r[j].id in m && StartsWith(r[j].id, documentId))
      && (|r| > 0 ==> r[0].score == 1.0)
  {
    var r := KeywordRanking(cands, topK);
    KeywordRankingShape(cands, topK);
    forall j | 0 <= j < |r| ensures r[j].id in m && StartsWith(r[j].id, documentId) {
      var p :| 0 <= p < |cands| && Ids(cands)[p] == r[j].id;
    }
  }

  // ---------------------------------------------------------------- rank fusion

  /** 1 / (k + rank + 1) with the 0-based rank of enumerate. */
  function RrfDelta(k: nat): (nat, Scored) -> real {
    (rank: nat, p: Scored) => 1.0 / ((k + rank + 1) as real)
  }

  function VectorWeighted(): (nat, Scored) -> real {
    (rank: nat, p: Scored) => p.score * WeightVector
  }

  function KeywordWeighted(): (nat, Scored) -> real {
    (rank: nat, p: Scored) => p.score * WeightKeyword
  }

  /** The defaultdict after both accumulation loops. */
  function Fuse(v: seq<Scored>, dv: (nat, Scored) -> real, kw: seq<Scored>, dk: (nat, Scored) -> real): seq<Scored> {
    Accumulate(Accumulate([], v, dv, |v|), kw, dk, |kw|)
  }

  /** sorted(..., reverse=True) followed by division by the maximum; dividing
      by a zero maximum raises ZeroDivisionError. */
  function Finish(raw: seq<Scored>): Result<seq<Scored>> {
    if |raw| == 0 then Ok([])
    else
      var sorted := SortDesc(raw, ScoreOf);
      var m := MaxScore(sorted);
      if m == 0.0 then Err(ZeroDivision) else Ok(Normalize(sorted, m))
  }

  lemma IdsPermutation(a: seq<Scored>, b: seq<Scored>)
    requires multiset(a) == multiset(b)
    ensures forall x :: x in Ids(a) <==> x in Ids(b)
  {
    forall x | x in Ids(a) ensures x in Ids(b) {
      var j :| 0 <= j < |a| && Ids(a)[j] == x;
      assert a[j] in multiset(b);
      var p :| 0 <= p < |b| && b[p] == a[j];
      assert Ids(b)[p] == x;
    }
    forall x | x in Ids(b) ensures x in Ids(a) {
      var j :| 0 <= j < |b| && Ids(b)[j] == x;
      assert b[j] in multiset(a);
      var p :| 0 <= p < |a| && a[p] == b[j];
      assert Ids(a)[p] == x;
    }
  }

  lemma MaxScorePermutation(a: seq<Scored>, b: seq<Scored>)
    requires |a| > 0 && multiset(a) == multiset(b)
    ensures |b| > 0 && MaxScore(a) == MaxScore(b)
  {
    assert |b| == |multiset(b)| == |a|;
    var i :| 0 <= i < |a| && a[i].score == MaxScore(a);
    assert a[i] in multiset(b);
    var p :| 0 <= p < |b| && b[p] == a[i];
    var k :| 0 <= k < |b| && b[k].score == MaxScore(b);
    assert b[k] in multiset(a);
    var q :| 0 <= q < |a| && a[q] == b[k];
  }

  /** Finishing keeps exactly the fused ids, and fails only on a zero maximum. */
  lemma FinishIds(raw: seq<Scored>)
    ensures Finish(raw).Err? <==> |raw| > 0 && MaxScore(raw) == 0.0
    ensures Finish(raw).Ok? ==> forall x :: x in Ids(Finish(raw).value) <==> x in Ids(raw)
  {
    if |raw| > 0 {
      var sorted := SortDesc(raw, ScoreOf);
      MaxScorePermutation(raw, sorted);
      IdsPermutation(raw, sorted);
    }
  }

  /** With positive raw scores the result is sorted, in (0, 1] and starts at 1. */
  lemma FinishPositive(raw: seq<Scored>)
    requires forall j :: 0 <= j < |raw| ==> raw[j].score > 0.0
    ensures Finish(raw).Ok?
    ensures NonIncreasing(Finish(raw).value, ScoreOf)
    ensures forall j :: 0 <= j < |Finish(raw).value| ==> 0.0 < Finish(raw).value[j].score <= 1.0
    ensures |raw| > 0 ==> |Finish(raw).value| > 0 && Finish(raw).value[0].score == 1.0
  {
    if |raw| > 0 {
      var sorted := SortDesc(raw, ScoreOf);
      forall j | 0 <= j < |sorted| ensures sorted[j].score > 0.0 {
        SortDescMember(raw, ScoreOf, j);
      }
      NormalizeByMax(sorted);
    }
  }

  /** Each finished score is the fused score of its id over the maximum. */
  lemma FinishScores(raw: seq<Scored>)
    requires |raw| > 0 && Distinct(Ids(raw)) && Finish(raw).Ok?
    ensures MaxScore(raw) != 0.0
    ensures forall j :: 0 <= j < |Finish(raw).value| ==>
              Finish(raw).value[j].score == Lookup(raw, Finish(raw).value[j].id) / MaxScore(raw)
  {
    var sorted := SortDesc(raw, ScoreOf);
    MaxScorePermutation(raw, sorted);
    var r := Finish(raw).value;
    forall j | 0 <= j < |r| ensures r[j].score == Lookup(raw, r[j].id) / MaxScore(raw) {
      SortDescMember(raw, ScoreOf, j);
      var p :| 0 <= p < |raw| && raw[p] == sorted[j];
      LookupAt(raw, p);
      assert r[j].id == Ids(r)[j] == Ids(sorted)[j] == sorted[j].id;
    }
  }

  /** The fused ids are the union of both inputs' ids, each once. */
  lemma FuseIds(v: seq<Scored>, dv: (nat, Scored) -> real, kw: seq<Scored>, dk: (nat, Scored) -> real)
    ensures Distinct(Ids(Fuse(v, dv, kw, dk)))
    ensures forall x :: x in Ids(Fuse(v, dv, kw, dk)) <==> x in Ids(v) || x in Ids(kw)
  {
    var first := Accumulate([], v, dv, |v|);
    AccumulateIds([], v, dv, |v|);
    AccumulateIds(first, kw, dk, |kw|);
    assert Ids(v)[..|v|] == Ids(v);
    assert Ids(kw)[..|kw|] == Ids(kw);
  }

  /** The fused score of an id is the sum of its two contributions. */
  lemma FuseLookup(v: seq<Scored>, dv: (nat, Scored) -> real, kw: seq<Scored>, dk: (nat, Scored) -> real, x: string)
    ensures Lookup(Fuse(v, dv, kw, dk), x) == Contribution(v, dv, x, |v|) + Contribution(kw, dk, x, |kw|)
  {
    AccumulateLookup([], v, dv, |v|, x);
    AccumulateLookup(Accumulate([], v, dv, |v|), kw, dk, |kw|, x);
  }

  lemma InverseAntitone(a: real, b: real)
    requires 0.0 < a <= b
    ensures 1.0 / a >= 1.0 / b
  {
    assert 1.0 / a - 1.0 / b == (b - a) / (a * b);
  }

  lemma RrfDeltaPositive(k: nat)
    ensures forall r: nat, p: Scored :: RrfDelta(k)(r, p) > 0.0
  {
  }

  /** One duplicate-free list: the rank order is already descending. */
  lemma RrfFresh(l: seq<Scored>, k: nat)
    requires Distinct(Ids(l))
    ensures |Accumulate([], l, RrfDelta(k), |l|)| == |l|
    ensures forall i :: 0 <= i < |l| ==>
              Accumulate([], l, RrfDelta(k), |l|)[i] == Scored(l[i].id, 1.0 / ((k + i + 1) as real))
  {
    RrfFreshDelta(l, k);
    forall i | 0 <= i < |l| ensures RrfDelta(k)(i, l[i]) == 1.0 / ((k + i + 1) as real) {
      RrfDeltaAt(k, i, l[i]);
    }
  }

  lemma RrfDeltaAt(k: nat, rank: nat, p: Scored)
    ensures RrfDelta(k)(rank, p) == 1.0 / ((k + rank + 1) as real)
  {
  }

  lemma RrfFreshDelta(l: seq<Scored>, k: nat)
    requires Distinct(Ids(l))
    ensures |Accumulate([], l, RrfDelta(k), |l|)| == |l|
    ensures forall i :: 0 <= i < |l| ==>
              Accumulate([], l, RrfDelta(k), |l|)[i] == Scored(l[i].id, RrfDelta(k)(i, l[i]))
  {
    AccumulateFresh(l, RrfDelta(k), |l|);
  }

  lemma {:induction false} RrfSingle(l: seq<Scored>, k: nat)
    requires Distinct(Ids(l))
    ensures Ids(SortDesc(Accumulate([], l, RrfDelta(k), |l|), ScoreOf)) == Ids(l)
  {
    var raw := Accumulate([], l, RrfDelta(k), |l|);
    RrfFresh(l, k);
    forall i, j | 0 <= i < j < |raw| ensures ScoreOf(raw[i]) >= ScoreOf(raw[j]) {
      InverseAntitone((k + i + 1) as real, (k + j + 1) as real);
    }
    SortDescOfSorted(raw, ScoreOf);
    assert forall i :: 0 <= i < |l| ==> Ids(raw)[i] == Ids(l)[i];
  }

  /** The promises of reciprocal_rank_fusion, about the fused table. */
  lemma RrfProperties(v: seq<Scored>, kw: seq<Scored>, k: nat)
    ensures Finish(Fuse(v, RrfDelta(k), kw, RrfDelta(k))).Ok?
    ensures var r := Finish(Fuse(v, RrfDelta(k), kw, RrfDelta(k))).value;
      (forall x :: x in Ids(r) <==> x in Ids(v) || x in Ids(kw))
      && NonIncreasing(r, ScoreOf)
      && (forall j :: 0 <= j < |r| ==> 0.0 < r[j].score <= 1.0)
      && (|r| > 0 ==> r[0].score == 1.0)
      && (|v| == 0 && |kw| == 0 ==> r == [])
      && (|kw| == 0 && Distinct(Ids(v)) ==> Ids(r) == Ids(v))
      && (|v| == 0 && Distinct(Ids(kw)) ==> Ids(r) == Ids(kw))
  {
    var d := RrfDelta(k);
    var raw := Fuse(v, d, kw, d);
    RrfDeltaPositive(k);
    AccumulatePositive([], v, d, |v|);
    AccumulatePositive(Accumulate([], v, d, |v|), kw, d, |kw|);
    FinishPositive(raw);
    FinishIds(raw);
    FuseIds(v, d, kw, d);
    if |kw| == 0 && Distinct(Ids(v)) {
      RrfSingle(v, k);
      if |raw| > 0 {
        var sorted := SortDesc(raw, ScoreOf);
        assert Ids(Finish(raw).value) == Ids(sorted);
      }
    }
    if |v| == 0 && Distinct(Ids(kw)) {
      assert Accumulate([], v, d, |v|) == [];
      RrfSingle(kw, k);
      if |raw| > 0 {
        var sorted := SortDesc(raw, ScoreOf);
        assert Ids(Finish(raw).value) == Ids(sorted);
      }
    }
  }

  /** The result of linear fusion: the fused scores 0.7 * vector + 0.3 *
      keyword, descending, over their maximum. */
  function LinearResult(v: seq<Scored>, kw: seq<Scored>): Result<seq<Scored>> {
    Finish(Fuse(v, VectorWeighted(), kw, KeywordWeighted()))
  }

  /** The promises of _linear_fusion. */
  lemma LinearProperties(v: seq<Scored>, kw: seq<Scored>, x: string)
    ensures Lookup(Fuse(v, VectorWeighted(), kw, KeywordWeighted()), x)
              == Contribution(v, VectorWeighted(), x, |v|) + Contribution(kw, KeywordWeighted(), x, |kw|)
    ensures var raw := Fuse(v, VectorWeighted(), kw, KeywordWeighted());
      LinearResult(v, kw).Err? <==> |raw| > 0 && MaxScore(raw) == 0.0
    ensures LinearResult(v, kw).Ok? ==>
              forall y :: y in Ids(LinearResult(v, kw).value) <==> y in Ids(v) || y in Ids(kw)
    ensures var raw := Fuse(v, VectorWeighted(), kw, KeywordWeighted());
      |raw| > 0 && MaxScore(raw) > 0.0 ==>
        NonIncreasing(LinearResult(v, kw).value, ScoreOf) && LinearResult(v, kw).value[0].score == 1.0
  {
    var raw := Fuse(v, VectorWeighted(), kw, KeywordWeighted());
    FuseLookup(v, VectorWeighted(), kw, KeywordWeighted(), x);
    FuseIds(v, VectorWeighted(), kw, KeywordWeighted());
    FinishIds(raw);
    if |raw| > 0 && MaxScore(raw) > 0.0 {
      var sorted := SortDesc(raw, ScoreOf);
      MaxScorePermutation(raw, sorted);
      NormalizeByPositiveMax(sorted);
    }
  }

  /** When every fused score is negative (vector hits with negative inner
      products and no keyword hit), dividing by the negative maximum turns the
      order around: the worse hit ends up with the larger score, and the list
      is no longer in descending order. */
  lemma LinearNegativeExample()
    ensures LinearResult([Scored("a_0", -0.2), Scored("b_0", -0.4)], [])
              == Ok([Scored("a_0", 1.0), Scored("b_0", 2.0)])
  {
    var v := [Scored("a_0", -0.2), Scored("b_0", -0.4)];
    var a, b := Scored("a_0", -0.2 * 0.7), Scored("b_0", -0.4 * 0.7);
    var first := Bump([], "a_0", -0.2 * 0.7);
    assert first == [a];
    assert Accumulate([], v, VectorWeighted(), 2) == Bump([a], "b_0", -0.4 * 0.7);
    assert Bump([a], "b_0", -0.4 * 0.7) == [a] + Bump([], "b_0", -0.4 * 0.7);
    var raw := [a, b];
    assert Fuse(v, VectorWeighted(), [], KeywordWeighted()) == raw;
    assert raw[..1] == [a];
    assert SortDesc([a], ScoreOf) == Insert(a, [], ScoreOf);
    assert SortDesc(raw, ScoreOf) == Insert(b, [a], ScoreOf) == [a] + Insert(b, [], ScoreOf);
    var m := -0.2 * 0.7;
    assert MaxScore(raw) == m;
    assert m / m == 1.0 && (-0.4 * 0.7) / m == 2.0;
    var n := Normalize(raw, m);
    assert n[0] == Scored("a_0", 1.0) && n[1] == Scored("b_0", 2.0);
    assert n == [Scored("a_0", 1.0), Scored("b_0", 2.0)];
  }

  // ---------------------------------------------------------------- resolving ids

  /** The final loop of hybrid_search: ids found in the metadata map become
      records, the others are skipped. */
  function Resolved(list: seq<Scored>, m: map<string, Entry>): (r: seq<Hit>)
    ensures |r| <= |list|
    ensures forall j :: 0 <= j < |r| ==>
              r[j].id in m && r[j].text == m[r[j].id].text && r[j].metadata == m[r[j].id].metadata
    ensures (forall i :: 0 <= i < |list| ==> list[i].id in m) ==>
              |r| == |list| && forall j :: 0 <= j < |r| ==> r[j].id == list[j].id && r[j].score == list[j].score
    decreases |list|
  {
    if |list| == 0 then []
    else
      var prev := Resolved(list[..|list| - 1], m);
      var p := list[|list| - 1];
      if p.id in m then prev + [Hit(p.id, m[p.id].text, m[p.id].metadata, p.score)] else prev
  }

  /** A stored id belongs to document_id: the id starts with it and the
      entry's metadata names it. */
  predicate Owned(id: string, m: map<string, Entry>, documentId: string) {
    id in m && "document_id" in m[id].metadata
    && StartsWith(id, documentId) && m[id].metadata["document_id"] == JStr(documentId)
  }

  /** [{... } for each stored id that starts with document_id and whose
      metadata names document_id] */
  function ChunksOf(ids: seq<string>, m: map<string, Entry>, documentId: string): (r: seq<ChunkRecord>)
    requires forall i :: 0 <= i < |ids| ==> ids[i] in m && "document_id" in m[ids[i]].metadata
    ensures forall j :: 0 <= j < |r| ==>
              r[j].id in ids && Owned(r[j].id, m, documentId)
              && r[j].text == m[r[j].id].text && r[j].metadata == m[r[j].id].metadata
    ensures forall i :: 0 <= i < |ids| && Owned(ids[i], m, documentId) ==>
              exists j :: 0 <= j < |r| && r[j].id == ids[i]
    decreases |ids|
  {
    if |ids| == 0 then []
    else
      var init := ids[..|ids| - 1];
      var prev := ChunksOf(init, m, documentId);
      var id := ids[|ids| - 1];
      FrontLast(ids);
      assert forall i :: 0 <= i < |init| ==> init[i] == ids[i];
      if Owned(id, m, documentId) then
        var r := prev + [ChunkRecord(id, m[id].text, m[id].metadata)];
        assert forall j :: 0 <= j < |prev| ==> r[j] == prev[j];
        assert r[|prev|].id == id;
        r
      else prev
  }

  /** Fusion as hybrid_search selects it. */
  function Combined(v: seq<Scored>, kw: seq<Scored>, useRrf: bool): Result<seq<Scored>> {
    if useRrf then Finish(Fuse(v, RrfDelta(RrfK), kw, RrfDelta(RrfK)))
    else LinearResult(v, kw)
  }

  /** `for rank, (doc_id, score) in enumerate(list): scores[doc_id] += delta(rank, ...)` */
  method AddAll(scores: seq<Scored>, list: seq<Scored>, delta: (nat, Scored) -> real) returns (r: seq<Scored>)
    ensures r == Accumulate(scores, list, delta, |list|)
  {
    r := scores;
    var rank := 0;
    while rank < |list|
      invariant 0 <= rank <= |list|
      invariant r == Accumulate(scores, list, delta, rank)
    {
      r := Bump(r, list[rank].id, delta(rank, list[rank]));
      rank := rank + 1;
    }
  }

  /** Fusion only reorders ids it was given, so when both inputs name stored
      ids, so does every fused entry (hybrid_search then skips none); RRF
      never fails. */
  lemma CombinedStored(v: seq<Scored>, kw: seq<Scored>, useRrf: bool, m: map<string, Entry>)
    requires forall j :: 0 <= j < |v| ==> v[j].id in m
    requires forall j :: 0 <= j < |kw| ==> kw[j].id in m
    ensures useRrf ==> Combined(v, kw, useRrf).Ok?
    ensures Combined(v, kw, useRrf).Ok? ==>
              forall j :: 0 <= j < |Combined(v, kw, useRrf).value| ==> Combined(v, kw, useRrf).value[j].id in m
  {
    var dv := if useRrf then RrfDelta(RrfK) else VectorWeighted();
    var dk := if useRrf then RrfDelta(RrfK) else KeywordWeighted();
    assert Combined(v, kw, useRrf) == Finish(Fuse(v, dv, kw, dk));
    if useRrf {
      RrfProperties(v, kw, RrfK);
    }
    FinishIds(Fuse(v, dv, kw, dk));
    FuseIds(v, dv, kw, dk);
    var c := Combined(v, kw, useRrf);
    if c.Ok? {
      forall j | 0 <= j < |c.value| ensures c.value[j].id in m {
        assert Ids(c.value)[j] == c.value[j].id;
        if c.value[j].id in Ids(v) {
          var p :| 0 <= p < |v| && Ids(v)[p] == c.value[j].id;
        } else {
          var p :| 0 <= p < |kw| && Ids(kw)[p] == c.value[j].id;
        }
      }
    }
  }

  /** What hybrid_search returns for the vector results v and keyword results
      kw: the first top_k fused entries, each joined with its stored text and
      metadata (an id that is no longer stored is skipped). */
  function HybridResult(v: seq<Scored>, kw: seq<Scored>, useRrf: bool, topK: nat, m: map<string, Entry>): Result<seq<Hit>> {
    match Combined(v, kw, useRrf)
    case Ok(c) => Ok(Resolved(Take(c, topK), m))
    case Err(e) => Err(e)
  }

  /** When both searches return stored ids: RRF never fails, no fused entry is
      skipped, the answer has min(top_k, |fused|) hits and every hit carries the
      fused id and score and the stored text and metadata. */
  lemma HybridProperties(v: seq<Scored>, kw: seq<Scored>, useRrf: bool, topK: nat, m: map<string, Entry>)
    requires forall j :: 0 <= j < |v| ==> v[j].id in m
    requires forall j :: 0 <= j < |kw| ==> kw[j].id in m
    ensures useRrf ==> HybridResult(v, kw, useRrf, topK, m).Ok?
    ensures HybridResult(v, kw, useRrf, topK, m).Err? ==> Combined(v, kw, useRrf).Err?
    ensures HybridResult(v, kw, useRrf, topK, m).Ok? ==>
              var r := HybridResult(v, kw, useRrf, topK, m).value;
              var c := Combined(v, kw, useRrf).value;
              |r| == Min(topK, |c|)
              && forall j :: 0 <= j < |r| ==>
                   r[j].id == c[j].id && r[j].score == c[j].score && r[j].id in m
                   && r[j].text == m[r[j].id].text && r[j].metadata == m[r[j].id].metadata
  {
    CombinedStored(v, kw, useRrf, m);
    var res := Combined(v, kw, useRrf);
    if res.Ok? {
      ResolvedTop(res.value, topK, m);
    }
  }

  /** The first top_k entries of a list of stored ids all resolve, in order. */
  lemma ResolvedTop(c: seq<Scored>, topK: nat, m: map<string, Entry>)
    requires forall j :: 0 <= j < |c| ==> c[j].id in m
    ensures var r := Resolved(Take(c, topK), m);
            |r| == Min(topK, |c|)
            && forall j :: 0 <= j < |r| ==>
                 r[j].id == c[j].id && r[j].score == c[j].score && r[j].id in m
                 && r[j].text == m[r[j].id].text && r[j].metadata == m[r[j].id].metadata
  {
    var top := Take(c, topK);
    assert forall i :: 0 <= i < |top| ==> top[i] == c[i];
  }

  // ---------------------------------------------------------------- the store

  class RagService {
    var documentsMetadata: map<string, Entry>
    var docIdsList: seq<string>
    var faissCount: nat

    /** The id list has no duplicates and holds exactly the map's keys (so it
        also gives the dict's iteration order), every stored metadata names
        its document, and FAISS holds at least one vector per listed id. */
    ghost predicate Valid()
      reads this
    {
      Distinct(docIdsList)
      && (forall id :: id in documentsMetadata <==> id in docIdsList)
      && (forall id :: id in documentsMetadata ==> "document_id" in documentsMetadata[id].metadata)
      && |docIdsList| <= faissCount
    }

    constructor ()
      ensures Valid()
      ensures documentsMetadata == map[] && docIdsList == [] && faissCount == 0
    {
      documentsMetadata := map[];
      docIdsList := [];
      faissCount := 0;
    }

    /** get_index_stats()["total_chunks"]: the FAISS vector count, which
        never falls below the number of listed ids. */
    function TotalChunks(): (n: nat)
      reads this
      requires Valid()
      ensures |docIdsList| <= n
    {
      faissCount
    }

    method AddDocuments(chunks: seq<Chunk>, documentId: string)
      requires Valid()
      modifies this
      ensures Valid()
      ensures documentsMetadata == StoreChunks(old(documentsMetadata), documentId, chunks, |chunks|)
      ensures docIdsList == AppendAbsent(old(docIdsList), ChunkIds(documentId, |chunks|))
      ensures faissCount == old(faissCount) + |chunks|
    {
      var i := 0;
      while i < |chunks|
        invariant 0 <= i <= |chunks|
        invariant documentsMetadata == StoreChunks(old(documentsMetadata), documentId, chunks, i)
        invariant docIdsList == AppendAbsent(old(docIdsList), ChunkIds(documentId, i))
        invariant faissCount == old(faissCount)
        invariant |docIdsList| <= |old(docIdsList)| + i
        invariant Distinct(docIdsList)
        invariant forall id :: id in documentsMetadata <==> id in docIdsList
        invariant forall id :: id in documentsMetadata ==> "document_id" in documentsMetadata[id].metadata
      {
        var id := ChunkId(documentId, i);
        documentsMetadata := documentsMetadata[id := ChunkEntry(documentId, chunks, i)];
        if id !in docIdsList {
          docIdsList := docIdsList + [id];
        }
        assert ChunkIds(documentId, i + 1)[..i] == ChunkIds(documentId, i);
        i := i + 1;
      }
      faissCount := faissCount + |chunks|;
    }

    method DeleteDocument(documentId: string)
      requires Valid()
      modifies this
      ensures Valid()
      ensures docIdsList == Unprefixed(old(docIdsList), documentId)
      ensures forall id :: id in documentsMetadata <==> id in old(documentsMetadata) && !StartsWith(id, documentId)
      ensures forall id :: id in documentsMetadata ==> documentsMetadata[id] == old(documentsMetadata)[id]
      ensures faissCount == old(faissCount)
    {
      var doomed := Prefixed(docIdsList, documentId);
      ForgetAll(doomed);
      WithoutPrefixed(old(docIdsList), doomed, documentId);
      forall id ensures id in documentsMetadata <==> id in old(documentsMetadata) && !StartsWith(id, documentId) {
        assert id in old(documentsMetadata) <==> id in old(docIdsList);
      }
    }

    /** delete_document's loop over the collected ids. */
    method ForgetAll(doomed: seq<string>)
      requires Distinct(docIdsList)
      modifies this
      ensures docIdsList == Without(old(docIdsList), doomed)
      ensures forall id :: id in documentsMetadata <==> id in old(documentsMetadata) && id !in doomed
      ensures forall id :: id in documentsMetadata ==> documentsMetadata[id] == old(documentsMetadata)[id]
      ensures faissCount == old(faissCount)
    {
      ghost var base := docIdsList;
      var j := 0;
      WithoutNothing(docIdsList);
      assert doomed[..0] == [];
      while j < |doomed|
        invariant 0 <= j <= |doomed|
        invariant docIdsList == Without(base, doomed[..j])
        invariant forall id :: id in documentsMetadata <==> id in old(documentsMetadata) && id !in doomed[..j]
        invariant forall id :: id in documentsMetadata ==> documentsMetadata[id] == old(documentsMetadata)[id]
        invariant faissCount == old(faissCount)
      {
        var id := doomed[j];
        assert doomed[..j + 1] == doomed[..j] + [id];
        Forget(id, base, doomed[..j]);
        j := j + 1;
      }
      assert doomed[..j] == doomed;
    }

    /** One step of delete_document's loop: `del documents_metadata[id]` and
        `doc_ids_list.remove(id)`, each only when id is there. */
    method Forget(id: string, ghost base: seq<string>, ghost gone: seq<string>)
      requires Distinct(base) && docIdsList == Without(base, gone)
      modifies this
      ensures docIdsList == Without(base, gone + [id])
      ensures forall x :: x in documentsMetadata <==> x in old(documentsMetadata) && x != id
      ensures forall x :: x in documentsMetadata ==> documentsMetadata[x] == old(documentsMetadata)[x]
      ensures faissCount == old(faissCount)
    {
      if id in documentsMetadata {
        documentsMetadata := documentsMetadata - {id};
      }
      RemoveFirstWithout(base, gone, id);
      if id in docIdsList {
        docIdsList := RemoveFirst(docIdsList, id);
      } else {
        WithoutExt(base, gone, gone + [id]);
      }
    }

    /** The position -> id step of vector_search. Its document_id argument is
        never read, so the model has none. */
    method VectorSearch(hits: seq<(nat, real)>, topK: nat) returns (results: seq<Scored>)
      requires Valid()
      requires |hits| <= Min(topK * 10, faissCount)
      requires forall i :: 0 <= i < |hits| ==> hits[i].0 < faissCount
      ensures results == Resolve(docIdsList, hits)
      ensures |results| <= topK * 10
      ensures forall j :: 0 <= j < |results| ==> results[j].id in documentsMetadata
    {
      results := [];
      var i := 0;
      while i < |hits|
        invariant 0 <= i <= |hits|
        invariant results == Resolve(docIdsList, hits[..i])
      {
        var idx := hits[i].0;
        if idx < |docIdsList| {
          results := results + [Scored(docIdsList[idx], hits[i].1)];
        }
        assert hits[..i + 1][..i] == hits[..i];
        i := i + 1;
      }
      assert hits[..i] == hits;
    }

    /** The loop of keyword_search over the stored chunks, in dict order. */
    method ScoreAll(terms: seq<string>, documentId: string) returns (scored: seq<Scored>)
      requires Valid()
      ensures scored == Candidates(docIdsList, documentsMetadata, terms, documentId)
    {
      scored := [];
      var i := 0;
      while i < |docIdsList|
        invariant 0 <= i <= |docIdsList|
        invariant scored == Candidates(docIdsList[..i], documentsMetadata, terms, documentId)
      {
        var id := docIdsList[i];
        if StartsWith(id, documentId) {
          var score := ScoreText(terms, Lower(documentsMetadata[id].text));
          if score > 0.0 {
            scored := scored + [Scored(id, score)];
          }
        }
        assert docIdsList[..i + 1][..i] == docIdsList[..i];
        i := i + 1;
      }
      assert docIdsList[..i] == docIdsList;
    }

    /** keyword_search; an empty document_id stands for None (every id
        starts with the empty string, so both mean "no filter"). */
    method KeywordSearch(query: string, topK: nat, documentId: string) returns (results: seq<Scored>)
      requires Valid()
      ensures results == KeywordRanking(Candidates(docIdsList, documentsMetadata, Split(Lower(query)), documentId), topK)
      ensures |results| <= topK
      ensures NonIncreasing(results, ScoreOf)
      ensures forall j :: 0 <= j < |results| ==>
                0.0 < results[j].score <= 1.0 && results[j].id in documentsMetadata && StartsWith(results[j].id, documentId)
      ensures |results| > 0 ==> results[0].score == 1.0
    {
      var scored := ScoreAll(Split(Lower(query)), documentId);
      var cands := scored;
      if |scored| > 0 {
        var m := MaxScore(scored);
        scored := SortDesc(Normalize(scored, m), ScoreOf);
      }
      results := Take(scored, topK);
      assert results == KeywordRanking(cands, topK);
      KeywordSearchShape(cands, documentsMetadata, documentId, topK);
    }

    method GetDocumentChunks(documentId: string) returns (chunks: seq<ChunkRecord>)
      requires Valid()
      ensures chunks == ChunksOf(docIdsList, documentsMetadata, documentId)
      ensures forall j :: 0 <= j < |chunks| ==>
                chunks[j].id in documentsMetadata && StartsWith(chunks[j].id, documentId)
                && documentsMetadata[chunks[j].id].metadata["document_id"] == JStr(documentId)
      ensures forall id :: (id in documentsMetadata && StartsWith(id, documentId)
                && documentsMetadata[id].metadata["document_id"] == JStr(documentId)) ==>
                exists j :: 0 <= j < |chunks| && chunks[j].id == id
    {
      chunks := [];
      var i := 0;
      while i < |docIdsList|
        invariant 0 <= i <= |docIdsList|
        invariant chunks == ChunksOf(docIdsList[..i], documentsMetadata, documentId)
      {
        var id := docIdsList[i];
        var data := documentsMetadata[id];
        if StartsWith(id, documentId) && data.metadata["document_id"] == JStr(documentId) {
          chunks := chunks + [ChunkRecord(id, data.text, data.metadata)];
        }
        assert docIdsList[..i + 1][..i] == docIdsList[..i];
        i := i + 1;
      }
      assert docIdsList[..i] == docIdsList;
      forall id | (id in documentsMetadata && StartsWith(id, documentId)
          && documentsMetadata[id].metadata["document_id"] == JStr(documentId))
        ensures exists j :: 0 <= j < |chunks| && chunks[j].id == id
      {
        var i :| 0 <= i < |docIdsList| && docIdsList[i] == id;
      }
    }

    method ReciprocalRankFusion(v: seq<Scored>, kw: seq<Scored>, k: nat) returns (combined: seq<Scored>)
      ensures Finish(Fuse(v, RrfDelta(k), kw, RrfDelta(k))) == Ok(combined)
      ensures forall x :: x in Ids(combined) <==> x in Ids(v) || x in Ids(kw)
      ensures NonIncreasing(combined, ScoreOf)
      ensures forall j :: 0 <= j < |combined| ==> 0.0 < combined[j].score <= 1.0
      ensures |combined| > 0 ==> combined[0].score == 1.0
      ensures |v| == 0 && |kw| == 0 ==> combined == []
      ensures |kw| == 0 && Distinct(Ids(v)) ==> Ids(combined) == Ids(v)
      ensures |v| == 0 && Distinct(Ids(kw)) ==> Ids(combined) == Ids(kw)
    {
      var scores := AddAll([], v, RrfDelta(k));
      scores := AddAll(scores, kw, RrfDelta(k));
      RrfProperties(v, kw, k);
      combined := SortDesc(scores, ScoreOf);
      if |combined| > 0 {
        var m := MaxScore(combined);
        combined := Normalize(combined, m);
      }
    }

    method LinearFusion(v: seq<Scored>, kw: seq<Scored>) returns (combined: Result<seq<Scored>>)
      ensures combined == LinearResult(v, kw)
    {
      var scores := AddAll([], v, VectorWeighted());
      scores := AddAll(scores, kw, KeywordWeighted());
      var sorted := SortDesc(scores, ScoreOf);
      if |sorted| == 0 {
        combined := Ok([]);
      } else {
        var m := MaxScore(sorted);
        if m == 0.0 {
          combined := Err(ZeroDivision);
        } else {
          combined := Ok(Normalize(sorted, m));
        }
      }
    }

    /** hybrid_search with the FAISS answer for the query as `hits`. */
    method HybridSearch(query: string, topK: nat, documentId: string, useRrf: bool, hits: seq<(nat, real)>)
      returns (r: Result<seq<Hit>>)
      requires Valid()
      requires |hits| <= Min(topK * 2 * 10, faissCount)
      requires forall i :: 0 <= i < |hits| ==> hits[i].0 < faissCount
      ensures r == HybridResult(Resolve(docIdsList, hits),
                     KeywordRanking(Candidates(docIdsList, documentsMetadata, Split(Lower(query)), documentId), topK * 2),
                     useRrf, topK, documentsMetadata)
    {
      var vr := VectorSearch(hits, topK * 2);
      var kr := KeywordSearch(query, topK * 2, documentId);
      var fused: Result<seq<Scored>>;
      if useRrf {
        var c := ReciprocalRankFusion(vr, kr, RrfK);
        fused := Ok(c);
      } else {
        fused := LinearFusion(vr, kr);
      }
      if fused.Err? {
        return Err(fused.error);
      }
      var top := Take(fused.value, topK);
      var out := ResolveAll(top);
      r := Ok(out);
    }

    /** The final loop of hybrid_search. */
    method ResolveAll(top: seq<Scored>) returns (out: seq<Hit>)
      ensures out == Resolved(top, documentsMetadata)
    {
      out := [];
      var i := 0;
      while i < |top|
        invariant 0 <= i <= |top|
        invariant out == Resolved(top[..i], documentsMetadata)
      {
        var p := top[i];
        if p.id in documentsMetadata {
          var data := documentsMetadata[p.id];
          out := out + [Hit(p.id, data.text, data.metadata, p.score)];
        }
        assert top[..i + 1][..i] == top[..i];
        i := i + 1;
      }
      assert top[..i] == top;
    }
  }

  // ---------------------------------------------------------------- the store's round trips

  /** add_documents keeps the class invariant's storage half: every listed id
      is stored and its metadata names a document. */
  lemma AddKeepsStored(m: map<string, Entry>, l: seq<string>, documentId: string, chunks: seq<Chunk>,
                       m': map<string, Entry>, l': seq<string>)
    requires forall id :: id in m <==> id in l
    requires forall id :: id in m ==> "document_id" in m[id].metadata
    requires m' == StoreChunks(m, documentId, chunks, |chunks|)
    requires l' == AppendAbsent(l, ChunkIds(documentId, |chunks|))
    ensures forall j :: 0 <= j < |l'| ==> l'[j] in m' && "document_id" in m'[l'[j]].metadata
  {
    forall j | 0 <= j < |l'| ensures l'[j] in m' && "document_id" in m'[l'[j]].metadata {
      var key := l'[j];
      StoreChunksAt(m, documentId, chunks, |chunks|, key);
      if key in ChunkIds(documentId, |chunks|) {
        var p :| 0 <= p < |chunks| && ChunkIds(documentId, |chunks|)[p] == key;
      }
    }
  }

  /** After add_documents(chunks, d), get_document_chunks(d) lists every new
      chunk whose own metadata does not override "document_id". */
  lemma AddedChunksAreListed(m: map<string, Entry>, l: seq<string>, documentId: string, chunks: seq<Chunk>, i: nat)
    requires forall id :: id in m <==> id in l
    requires forall id :: id in m ==> "document_id" in m[id].metadata
    requires i < |chunks| && "document_id" !in chunks[i].extra
    ensures var m' := StoreChunks(m, documentId, chunks, |chunks|);
      var l' := AppendAbsent(l, ChunkIds(documentId, |chunks|));
      (forall j :: 0 <= j < |l'| ==> l'[j] in m' && "document_id" in m'[l'[j]].metadata)
      && exists j :: 0 <= j < |ChunksOf(l', m', documentId)| && ChunksOf(l', m', documentId)[j].id == ChunkId(documentId, i)
  {
    var m' := StoreChunks(m, documentId, chunks, |chunks|);
    var l' := AppendAbsent(l, ChunkIds(documentId, |chunks|));
    AddKeepsStored(m, l, documentId, chunks, m', l');
    var id := ChunkId(documentId, i);
    StoreChunksAt(m, documentId, chunks, |chunks|, id);
    ChunkIdPrefix(documentId, i);
    assert ChunkIds(documentId, |chunks|)[i] == id;
    var e := ChunkEntry(documentId, chunks, i);
    assert e.metadata["document_id"] == JStr(documentId);
    assert m'[id] == e;
    assert id in l';
    ListedWhenOwned(l', m', documentId, id);
  }

  /** get_document_chunks(d) lists every listed id that starts with d and
      whose metadata names d. */
  lemma ListedWhenOwned(ids: seq<string>, m: map<string, Entry>, documentId: string, id: string)
    requires forall i :: 0 <= i < |ids| ==> ids[i] in m && "document_id" in m[ids[i]].metadata
    requires id in ids && StartsWith(id, documentId)
    requires id in m && "document_id" in m[id].metadata && m[id].metadata["document_id"] == JStr(documentId)
    ensures exists j :: 0 <= j < |ChunksOf(ids, m, documentId)| && ChunksOf(ids, m, documentId)[j].id == id
  {
    var p :| 0 <= p < |ids| && ids[p] == id;
    var r := ChunksOf(ids, m, documentId);
    assert StartsWith(ids[p], documentId) && m[ids[p]].metadata["document_id"] == JStr(documentId);
    assert exists j :: 0 <= j < |r| && r[j].id == ids[p];
  }

  /** get_document_chunks(d) finds nothing in a list where no id starts with d. */
  lemma {:induction false} ChunksOfNoPrefix(ids: seq<string>, m: map<string, Entry>, documentId: string)
    requires forall i :: 0 <= i < |ids| ==> ids[i] in m && "document_id" in m[ids[i]].metadata
    requires forall i :: 0 <= i < |ids| ==> !StartsWith(ids[i], documentId)
    ensures ChunksOf(ids, m, documentId) == []
    decreases |ids|
  {
    if |ids| > 0 {
      ChunksOfNoPrefix(ids[..|ids| - 1], m, documentId);
    }
  }

  /** After delete_document(d), get_document_chunks(d) finds nothing. */
  lemma DeletedChunksAreGone(m: map<string, Entry>, l: seq<string>, documentId: string)
    requires forall id :: id in Unprefixed(l, documentId) ==> id in m && "document_id" in m[id].metadata
    ensures ChunksOf(Unprefixed(l, documentId), m, documentId) == []
  {
    var ids := Unprefixed(l, documentId);
    assert forall i :: 0 <= i < |ids| ==> ids[i] in ids;
    ChunksOfNoPrefix(ids, m, documentId);
  }

  /** delete_document matches ids by string prefix, so deleting document "a"
      also removes the chunks of document "ab". */
  lemma DeletePrefixCollision()
    ensures Unprefixed([ChunkId("a", 0), ChunkId("ab", 0)], "a") == []
  {
    assert StartsWith(ChunkId("a", 0), "a");
    assert StartsWith(ChunkId("ab", 0), "a");
  }

  /** FAISS keeps its vectors after a delete, so a position is then read
      against a shorter list: the vector stored for "a_0" (position 0) is
      reported as "b_0", and the vector of "b_0" (position 1) is dropped. */
  lemma StaleMappingAfterDelete()
    ensures Unprefixed([ChunkId("a", 0), ChunkId("b", 0)], "a") == [ChunkId("b", 0)]
    ensures Resolve([ChunkId("b", 0)], [(0, 0.9), (1, 0.8)]) == [Scored(ChunkId("b", 0), 0.9)]
  {
    assert StartsWith(ChunkId("a", 0), "a");
    assert ChunkId("b", 0)[..1] == "b";
    assert !StartsWith(ChunkId("b", 0), "a");
    var hits: seq<(nat, real)> := [(0, 0.9), (1, 0.8)];
    assert hits[..1] == [(0, 0.9)];
    assert hits[..1][..0] == [];
  }
}
