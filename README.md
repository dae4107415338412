# pdf-consultor: a verified model of the retrieval and chat core

pdf-consultor answers questions about a library of PDF documents. Chunks of
extracted text go into a hybrid index, a FAISS vector index paired with a
keyword scorer. A RAPTOR tree of cluster summaries is built over each
document. Prompts are assembled from the retrieved passages, the RAPTOR
summary and the chat history, and sent to a chat model. A JSON store keeps
the metadata of each document and the notes made on it.

This project models that core in Dafny and proves what its code promises:

- `Rag` (rag.dfy) is the RAG service as a class. Its fields are the chunk
  dictionary `documentsMetadata`, the FAISS position list `docIdsList` and
  the FAISS vector count `faissCount`. Adding, deleting, searching, fusing
  and listing are methods proved against functions of that state.
- `Ranking` (ranking.dfy) holds the score-list machinery those searches
  share: sorting by descending score, dividing by the maximum, and the
  `defaultdict(float)` accumulation of fused scores.
- `Raptor` (raptor.dfy) covers clustering into groups, the level-by-level
  tree builder, the summary reader and the multi-level retrieval. The
  builder writes summary-node children as the source does, by position at
  level 1 (`Raptor.ChildrenAsWritten`). The member-based children the code
  evidently intends are `Raptor.Children` (see Findings).
- `Prompts` (prompts.py's deterministic helpers): response validation,
  chunk formatting, token estimate, history lines and level descriptions.
- `Chat` and `ChatV2` are the two chat services: context and prompt
  assembly, answer sources, and the level choice, page filter and fallbacks
  of document summaries.
- `Persistence` is the metadata and note store as a class with two map
  fields. `Pdf` holds the page decisions of the PDF processor. `Models`
  holds the records, and `Common` the Python string and sequence built-ins
  the code relies on.

The embedding model, FAISS search, KMeans, the tokenizer and the chat model
are parameters of the model:

- the FAISS answer is a list of (position, score) pairs;
- KMeans is a labelling function that gives one label per chunk, below the
  cluster count (`Raptor.IsKMeans`);
- the tokenizer is a function from text to a count;
- the chat model is a function from a prompt to a reply or a raised error.

## Model

| member | source | states |
|---|---|---|
| Rag.ChunkIdInjective | app/rag_service.py:66 | two different chunk indexes of a document give different chunk ids |
| Rag.ChunkIdPrefix | app/rag_service.py:66 | every chunk id of a document starts with the document id |
| Rag.ChunkIds | app/rag_service.py:66 | the ids added are exactly `{document_id}_{i}` for i below the chunk count, in order |
| Rag.ChunkMetadata | app/rag_service.py:68-77 | the stored metadata has document_id, page, chunk_index and text_length; the chunk's own metadata keys override them |
| Rag.StoreChunksAt | app/rag_service.py:84-90 | after storing, a key is present iff it was before or is a new chunk id; new ids map to their chunk entry, and other old keys keep their entry |
| Rag.RagService.constructor | app/rag_service.py:21-26 | the service starts with an empty dictionary, an empty position list and an empty vector index |
| Rag.RagService.TotalChunks | app/rag_service.py:293 | total_chunks is at least the number of listed positions |
| Rag.RagService.AddDocuments | app/rag_service.py:61-93 | the dictionary gains each chunk's entry, the position list gains each new id once, and the vector count grows by the chunk count; the dictionary-list invariant is kept |
| Rag.AddKeepsStored | app/rag_service.py:84-90 | after an addition every listed id is stored and carries a document_id |
| Rag.AddedChunksAreListed | app/rag_service.py:61-261 | a chunk just added, whose own metadata does not override document_id, is returned by get_document_chunks |
| Rag.Prefixed | app/rag_service.py:269 | the collected ids are those of the list that start with the document id |
| Rag.Unprefixed | app/rag_service.py:277-281 | the ids kept are those of the list that do not start with the document id |
| Rag.Without | app/rag_service.py:277-281 | removing a collection of ids keeps exactly the others, and keeps a duplicate-free list duplicate free |
| Rag.WithoutNothing | app/rag_service.py:277-281 | removing no ids leaves the list as it was |
| Rag.WithoutExt | app/rag_service.py:277-281 | removals that agree on the list's members leave the same list |
| Rag.RemoveFirstWithout | app/rag_service.py:281 | `list.remove(x)` on a duplicate-free list, after removing xs, is removing xs and then x |
| Rag.WithoutPrefixed | app/rag_service.py:269-281 | removing the collected ids one by one leaves exactly the ids without the prefix |
| Rag.RagService.DeleteDocument | app/rag_service.py:263-285 | the position list and the dictionary lose exactly the ids starting with the document id; the other entries and the vector count are unchanged |
| Rag.RagService.ForgetAll | app/rag_service.py:277-281 | the loop over the collected ids removes exactly those ids from both the list and the dictionary |
| Rag.RagService.Forget | app/rag_service.py:278-281 | one iteration removes one id from the dictionary and its first occurrence from the list |
| Rag.DeletedChunksAreGone | app/rag_service.py:247-285 | after delete_document, get_document_chunks for that document returns nothing |
| Rag.DeletePrefixCollision | app/rag_service.py:269 | deleting document "a" also deletes the chunks of document "ab" |
| Rag.StaleMappingAfterDelete | app/rag_service.py:115-285 | after a deletion the unrebuilt FAISS positions resolve to the shifted list: a hit on position 0 now names another document's chunk, and one past the end is dropped |
| Rag.Resolve | app/rag_service.py:112-120 | each hit below the list length becomes (id at that position, score), in order; others are skipped |
| Rag.RagService.VectorSearch | app/rag_service.py:97-122 | the results are the resolved FAISS hits, at most top_k*10 of them, each naming a stored chunk |
| Rag.QueryScore | app/rag_service.py:141-147 | the keyword score is non-negative, and positive iff some query term occurs in the text |
| Rag.RagService.ScoreText | app/rag_service.py:141-147 | the loop computes the keyword score, 1 per term found plus 0.5 when it occurs as a whole word |
| Rag.Candidates | app/rag_service.py:134-150 | every candidate is a stored id with the document prefix and its positive score on the lower-cased text |
| Rag.CandidatesComplete | app/rag_service.py:134-150 | every id with the document prefix and a positive score is a candidate |
| Rag.RagService.ScoreAll | app/rag_service.py:134-150 | the scoring loop produces the candidate list |
| Rag.KeywordRankingShape | app/rag_service.py:153-158 | the ranking has min(top_k, candidates) entries, is sorted by descending score, has scores in (0, 1] and starts with 1.0 |
| Rag.KeywordSearchShape | app/rag_service.py:124-158 | keyword results are stored chunks of the document, sorted, with scores in (0, 1], and the first scores 1.0 |
| Rag.RagService.KeywordSearch | app/rag_service.py:124-158 | keyword_search returns the normalised ranking, sorted, at most top_k, from the document, with the best at 1.0 |
| Ranking.SortDesc | app/rag_service.py:156 | the sort is a permutation of its input and is non-increasing in the key |
| Ranking.SortDescOfSorted | app/rag_service.py:156 | sorting an already sorted list leaves it unchanged |
| Ranking.TakeSorted | app/rag_service.py:158 | a prefix of a sorted list is sorted |
| Ranking.MaxScore | app/rag_service.py:154 | the maximum bounds every score and is attained |
| Ranking.Normalize | app/rag_service.py:155 | normalising keeps ids and order and divides each score by the maximum |
| Ranking.NormalizeByMax | app/rag_service.py:153-158 | normalising positive scores by their maximum gives a sorted list with scores in (0, 1] starting at 1.0 |
| Ranking.NormalizeBounds | app/rag_service.py:154-155 | normalised positive scores lie in (0, 1] and one of them is 1.0 |
| Ranking.SortedTop | app/rag_service.py:156 | sorting scores in (0, 1] that include 1.0 puts 1.0 first and keeps the ids |
| Ranking.AppendAbsent | app/rag_service.py:170-176 | accumulated keys keep their order, gain exactly the new ids, and stay duplicate free |
| Ranking.AccumulateLookup | app/rag_service.py:170-176 | an id's accumulated score is its old score plus its contribution from the list |
| Ranking.AccumulateIds | app/rag_service.py:170-176 | the accumulated ids are the old ids followed by the new ones in first-seen order |
| Ranking.AccumulatePositive | app/rag_service.py:170-176 | positive increments keep every accumulated score positive |
| Ranking.AccumulateFresh | app/rag_service.py:170-176 | over a duplicate-free list, from nothing, entry r is (id r, increment at rank r) |
| Ranking.BumpLookup | app/rag_service.py:172 | `combined[id] += delta` changes that id's score by delta and no other |
| Rag.RagService.ReciprocalRankFusion | app/rag_service.py:160-186 | RRF returns exactly the ids of both lists, sorted, with scores in (0, 1], the best at 1.0; a single distinct list keeps its order |
| Rag.RrfProperties | app/rag_service.py:160-186 | the same properties for the RRF function, and that it never fails |
| Rag.RrfDeltaPositive | app/rag_service.py:172-176 | every RRF increment 1/(k + rank + 1) is positive |
| Rag.RrfFresh | app/rag_service.py:170-176 | one distinct list accumulates to its ids with 1/(k + rank + 1) each |
| Rag.RrfSingle | app/rag_service.py:160-186 | fusing one distinct list alone gives back its ids in its order |
| Rag.InverseAntitone | app/rag_service.py:172 | a later rank never gets a larger RRF increment |
| Rag.FuseIds | app/rag_service.py:168-176 | the fused ids are distinct and are exactly those of either list |
| Rag.FuseLookup | app/rag_service.py:168-176 | an id's fused score is the sum of its contributions from the two lists |
| Rag.FinishIds | app/rag_service.py:179-186 | sort-and-normalise fails iff the list is non-empty with maximum 0 (ZeroDivisionError), and otherwise keeps the ids |
| Rag.FinishPositive | app/rag_service.py:179-186 | sort-and-normalise of positive scores succeeds, sorted, in (0, 1], with 1.0 first |
| Rag.FinishScores | app/rag_service.py:179-186 | each normalised score is that id's fused score divided by the maximum |
| Rag.IdsPermutation | app/rag_service.py:179 | a permutation keeps the set of ids |
| Rag.MaxScorePermutation | app/rag_service.py:183 | a permutation keeps the maximum score |
| Rag.RagService.LinearFusion | app/rag_service.py:225-245 | linear fusion is the 0.7/0.3 weighted sum, sorted and divided by its maximum |
| Rag.LinearProperties | app/rag_service.py:225-245 | fused scores are the weighted sums; it fails iff the maximum is 0; it keeps the ids of both lists; with a positive maximum it is sorted and starts at 1.0 |
| Rag.LinearNegativeExample | app/rag_service.py:238-243 | with all scores negative, dividing by the maximum reverses the order and gives scores above 1.0 |
| Rag.Resolved | app/rag_service.py:211-223 | each hit names a stored id with its text and metadata; when every id is stored, all are kept in order with their scores |
| Rag.ResolvedTop | app/rag_service.py:213-221 | the first min(top_k, n) entries of a list of stored ids all become hits, in order, with their ids, scores, texts and metadata |
| Rag.RagService.ResolveAll | app/rag_service.py:211-223 | the resolving loop produces the resolved list |
| Rag.AddAll | app/rag_service.py:170-176 | the accumulation loop over one list gives the accumulation function |
| Rag.CombinedStored | app/rag_service.py:198-209 | RRF fusion never fails, and fused ids of stored hits are stored |
| Rag.HybridProperties | app/rag_service.py:188-223 | hybrid search fails only when linear fusion does, and otherwise returns the first min(top_k, fused) fused ids with their scores, texts and metadata |
| Rag.RagService.HybridSearch | app/rag_service.py:188-223 | hybrid_search is vector and keyword search at 2*top_k, fused, cut to top_k and resolved |
| Rag.ChunksOf | app/rag_service.py:247-261 | the chunks listed are exactly the listed ids with the prefix whose document_id is the document, with text and metadata |
| Rag.RagService.GetDocumentChunks | app/rag_service.py:247-261 | get_document_chunks returns exactly the stored chunks that pass both the prefix test and the document_id test |
| Rag.ListedWhenOwned | app/rag_service.py:254 | a listed id that passes both tests is returned |
| Rag.ChunksOfNoPrefix | app/rag_service.py:254 | when no id has the prefix, no chunk is returned |
| Raptor.ChunkNameInjective | app/raptor_service.py:158-160 | different chunk positions get different `chunk_{i}` ids |
| Raptor.SummaryIdInjective | app/raptor_service.py:180 | different clusters of a level get different summary ids |
| Raptor.FindGroup | app/raptor_service.py:82-86 | the group found is the first with that label, or none |
| Raptor.GroupsUpToGrouped | app/raptor_service.py:82-86 | after n labels the groups are keyed by distinct labels, list their members in ascending order, start in first-appearance order and cover 0..n-1 |
| Raptor.GroupedAdd | app/raptor_service.py:83-86 | appending one index to its label's group keeps that grouping invariant |
| Raptor.GroupedJoin | app/raptor_service.py:86 | appending to an existing group keeps the invariant |
| Raptor.GroupedOpen | app/raptor_service.py:84-85 | opening a new group keeps the invariant |
| Raptor.GroupedPartition | app/raptor_service.py:82-86 | the grouped indexes form a partition of 0..n-1 into ascending, non-empty groups |
| Raptor.SingletonsPartition | app/raptor_service.py:70-72 | the one-per-chunk clustering is a partition |
| Raptor.ClusteringPartition | app/raptor_service.py:56-86 | cluster_chunks fails iff n_clusters is below 1 and not above the chunk count; otherwise it returns a partition of the chunks into at most n_clusters groups |
| Raptor.ClusterChunks | app/raptor_service.py:56-86 | the grouping loop computes the clustering function |
| Raptor.FallbackSummaries | app/raptor_service.py:99-131 | without a model the summary joins the first 3 texts; after a model error it joins the first 2 |
| Raptor.SummarizeLevel | app/raptor_service.py:175-190 | one level's loop produces that level's summaries and its summary nodes, whose children are written as the source names them (`chunk_{i}` by position at level 1) |
| Raptor.BuildRaptorTree | app/raptor_service.py:133-200 | it fails iff min_chunks is 0 and a level is attempted; the depth is in 0..max_depth; the tree, with the nodes as the source writes them, is built level by level; it stops at max_depth or when a level has fewer than min_chunks summaries |
| Raptor.LevelsStep | app/raptor_service.py:166-196 | one more built level keeps the levels-built invariant |
| Raptor.BuiltStep | app/raptor_service.py:166-196 | one more built level keeps the whole-tree invariant |
| Raptor.NodesStep | app/raptor_service.py:183-196 | registering one more level of summaries keeps every lower level and appends exactly that level's nodes, as the source writes them, to the node list |
| Raptor.NodesUpToFrame | app/raptor_service.py:166-196 | the nodes of levels 1..top depend only on those levels |
| Raptor.BuiltDepth | app/raptor_service.py:166-198 | depth is at most max_depth, is 0 for fewer than min_chunks chunks, and a positive depth needs a non-zero min_chunks |
| Raptor.BuiltLevel | app/raptor_service.py:166-194 | each level L was built from at least min_chunks texts into a partition of at most n_clusters clusters, one summary per cluster with id and text, with distinct ids |
| Raptor.BuiltChunkNodes | app/raptor_service.py:158-160 | the tree starts with one chunk node per chunk, and level 0 maps `chunk_{i}` to chunk i |
| Raptor.BuiltLevelKeys | app/raptor_service.py:180-181 | the ids of level L are `summary_level{L}_cluster{j}` in cluster order |
| Raptor.BuiltCluster | app/raptor_service.py:168-176 | every cluster lists ascending positions of the level below |
| Raptor.NodesUpToAt | app/raptor_service.py:183-189 | every node after the chunks is the summary node the source writes for a cluster of its level, children by position at level 1 |
| Raptor.NodeOfClusterIntro | app/raptor_service.py:183-189 | a node written for a cluster has the cluster's id and text and one child per member, each an id of the level below: the member's own id above level 1, the id of chunk i for the i-th member at level 1 |
| Raptor.ChildrenAsWrittenListed | app/raptor_service.py:187-189 | the written children of an ascending cluster are one per member and all ids of the level below: positions at level 1, so at most as many as that level has, and the members' ids above it |
| Raptor.BuiltSummaryNode | app/raptor_service.py:183-189 | every summary node of the built tree has its cluster's id and text and one child per member, each a key of the level below; above level 1 the i-th child is the i-th member's id, at level 1 it is `chunk_{i}` |
| Raptor.ChildrenListed | app/raptor_service.py:187-189 | each child is the id of the corresponding member on the level below |
| Raptor.ChildrenAsWrittenByPosition | app/raptor_service.py:187-189 | as written, level-1 children are numbered by position in the cluster, so a cluster {1, 3} gets chunk_0 and chunk_1; above level 1 the written children are the intended ones |
| Raptor.BuildAndIndexDocument | app/raptor_service.py:319-338 | building with the configured depth 3 and minimum 4 gives a built tree of depth at most 3 |
| Raptor.GetRaptorSummary | app/raptor_service.py:266-294 | the summary is the level's texts joined by blank lines (level -1 is the top), or "" for a missing level |
| Raptor.Range | app/raptor_service.py:221-225 | `list(range(n))` is 0..n-1, and empty for n at most 0 |
| Raptor.AllHitsMember | app/raptor_service.py:233-259 | a hit is collected iff its level is searched and present, its (id, text) is in that level, its score is the similarity, and its kind follows the level |
| Raptor.CollectLevel | app/raptor_service.py:240-259 | one level's loop collects that level's hits |
| Raptor.RetrieveFromRaptor | app/raptor_service.py:202-264 | retrieval is all hits of the searched levels, sorted by descending score and cut at top_k |
| Raptor.RetrieveRanked | app/raptor_service.py:262-264 | the result has min(top_k, hits) entries (Python slicing for a negative top_k), is sorted, and every hit left out scores no more than any hit kept |
| Raptor.PrefixDominates | app/raptor_service.py:262-264 | in a sorted list, each hit past the cut scores no more than any hit before it |
| Raptor.RetrieveEntries | app/raptor_service.py:221-259 | each retrieved hit comes from a searched level of the tree with its similarity, and is a chunk iff its level is 0 |
| Prompts.LongWords | app/prompts.py:652 | the keywords are exactly the query words longer than 3 characters, in order |
| Prompts.CountFound | app/prompts.py:654 | the number found is at most the keyword count, and zero iff no keyword occurs in the response |
| Prompts.AssessChecks | app/prompts.py:633-668 | valid iff it cites a page, has 50 characters or more and is not off topic; each issue and warning appears exactly in its case |
| Prompts.AssessScore | app/prompts.py:671-685 | the score is a multiple of 20 in 0..100 and is 100 iff every check passes; it is at most 80 without context; the quality bands follow score 80/60/40 |
| Prompts.ValidateProperties | app/prompts.py:611-686 | validate_response on its inputs: score bounds, at most 3 keywords, the validity condition, and no off-topic issue without keywords |
| Prompts.ValidateResponse | app/prompts.py:611-686 | the method computes the validation of the response |
| Prompts.Checks | app/prompts.py:633-685 | the method's checks compute the assessment |
| Prompts.Cut | app/prompts.py:709-711 | `text[:n] + "..."` when longer than n: Python slicing for a negative n; a non-negative n clips |
| Prompts.BlockTail | app/prompts.py:705-713 | each block's text after its number starts with a space |
| Prompts.FormatChunksForPrompt | app/prompts.py:693-715 | formatting gives the blocks joined by blank lines |
| Prompts.BlockSplit | app/prompts.py:705-713 | a block is its `[Trecho i - Página p]` header followed by the cut text |
| Prompts.FormattedChunksShape | app/prompts.py:705-713 | block i starts with its header and carries the whole text, or its first max_per_chunk characters and "..." |
| Prompts.FormattedChunksStart | app/prompts.py:693-715 | a non-empty formatting starts with the first block and with `[Trecho 1 - Página ` |
| Prompts.FirstBlockStart | app/prompts.py:713 | the block of the first chunk starts with `[Trecho 1 - Página ` |
| Prompts.BlocksNumbered | app/prompts.py:705-713 | blocks are numbered apart: two blocks are equal only at the same position |
| Prompts.BlockDigits | app/prompts.py:713 | after the label, block i carries the number i+1 and its tail |
| Prompts.EstimateTokens | app/prompts.py:718-723 | the token estimate is the character count divided by 4, rounded down |
| Prompts.RoleLabel | app/prompts.py:146-151 | USUÁRIO for the user role, ASSISTENTE for any other |
| Prompts.FormatHistory | app/prompts.py:145-151 | the history text is empty for no history, else the header and one line per message of the last 10, each cut to 500 characters |
| Prompts.OlderHistoryIgnored | app/prompts.py:146-151 | messages older than the last 10 do not change the history text |
| Prompts.NewestMessageLast | app/prompts.py:146-151 | the history text ends with the newest message's line |
| Prompts.LevelDescriptionInitial | app/prompts.py:392-419 | the descriptions of levels 1 to 4 start with their ordinal (primeiro, segundo, terceiro, quarto) and any other level's with `nível` |
| Prompts.LevelDescriptionInjective | app/prompts.py:392-419 | different levels get different descriptions |
| Prompts.LevelDescriptionGeneric | app/prompts.py:416-419 | a level outside 1..4 is exactly one whose description starts with `nível ` |
| Chat.LimitContext | app/chat_service.py:84-92 | a context within 16000 tokens is kept; a longer one keeps its first 62000 characters and gets the truncation marker |
| Chat.BuildContext | app/chat_service.py:50-94 | the method assembles the summary, the heading and the numbered chunks, then applies the token limit |
| Chat.ChunkPartsAt | app/chat_service.py:76-79 | chunk k contributes its `[Trecho k+1 - Página p]` header and its whole text |
| Chat.ContextShape | app/chat_service.py:64-82 | the RAPTOR summary comes first exactly when it is used and non-empty; then the heading; then header and text per chunk |
| Chat.BuildPrompt | app/chat_service.py:96-128 | the method assembles the prompt text |
| Chat.PromptShape | app/chat_service.py:96-128 | the prompt has the context at its place, one line per message of the last 10, and the question last |
| Chat.OlderMessagesDropped | app/chat_service.py:121-123 | messages older than the last 10 do not change the prompt |
| Chat.CollectSources | app/chat_service.py:201-207 | the method builds one source per result |
| Chat.SourcesShape | app/chat_service.py:201-207 | each source has the result's score, its page or "N/A", and its text clipped to 200 characters plus "..." |
| Chat.Chat | app/chat_service.py:130-214 | an empty retrieval returns the apology with no sources; otherwise the model's answer (or the error message) on the built prompt, the sources and the RAPTOR summary |
| Chat.TargetLevel | app/chat_service.py:237-246 | the level is {brief 2, medium 1, detailed 0, other -1} lowered to the tree depth |
| Chat.TargetLevelInRange | app/chat_service.py:237-249 | the level read is in 0..depth, equal to the requested level when that exists; -1 exactly for unknown detail levels |
| Chat.FilterPages | app/chat_service.py:258-259 | every kept chunk is on a requested page and every chunk on a requested page is kept |
| Chat.FilterPagesCount | app/chat_service.py:258-259 | each chunk on a requested page is kept exactly as often as it occurs, and any other chunk never |
| Chat.FilterPagesAppend | app/chat_service.py:258-259 | filtering a concatenation is the concatenation of the filtered parts, so the kept chunks keep the input order |
| Chat.FilterPagesSingle | app/chat_service.py:258-259 | a single chunk is kept iff it is on a requested page |
| Chat.SelectChunksProperties | app/chat_service.py:258-264 | without pages all chunks are read; with pages, the matching ones, or the first ten when none matches |
| Chat.SummarizeFallbacks | app/chat_service.py:216-297 | the tree summary wins when not empty; no chunks gives the not-indexed message; a model error gives the first 500 characters of the texts and "..." |
| ChatV2.MapCategoryToDocType | app/chat_service_v2.py:52-59 | each category maps to its prompt type, and outros to the general type |
| ChatV2.CategoryNamedValue | app/chat_service_v2.py:284 | reading a stored category value gives back the category |
| ChatV2.DocTypeOfRecord | app/chat_service_v2.py:284 | a stored record's prompt type is its category's type, and general exactly for outros |
| ChatV2.BuildContext | app/chat_service_v2.py:61-111 | the method assembles the context with per-chunk truncation, then the token limit |
| ChatV2.ChunkPartsAt | app/chat_service_v2.py:87-96 | chunk k contributes its header and its text clipped to 500 characters |
| ChatV2.ContextShape | app/chat_service_v2.py:75-99 | the summary is first exactly when used and non-empty; each chunk is its header and its text or its first 500 characters and "..." |
| ChatV2.ChatWithCot | app/chat_service_v2.py:113-211 | the chain-of-thought answer on the metadata, the retrieval and the history |
| ChatV2.ChatV2 | app/chat_service_v2.py:213-327 | the corrected chat computes its reply from the caller's metadata or the stored record |
| ChatV2.ChatPaths | app/chat_service_v2.py:213-327 | no metadata gives "not found"; an empty retrieval gives the apology; otherwise the chosen prompt (history only in the chain-of-thought one), one source per result, and the reply or the error message |
| ChatV2.ChatAsWrittenAgrees | app/chat_service_v2.py:232-245 | with metadata given, no stored document or an empty retrieval, the code as written and the corrected chat agree |
| ChatV2.StoredDocumentLookup | app/chat_service_v2.py:232-293 | with a stored document, no metadata and a non-empty retrieval, the code as written raises AttributeError; the corrected chat prompts with the stored title, page count and category |
| ChatV2.DetailEnum | app/chat_service_v2.py:351 | brief and medium name their enum values; any other detail level is detailed |
| ChatV2.DetailAgreesWithLevel | app/chat_service_v2.py:350-359 | the prompt enum and the tree level agree on brief and medium; unknown and detailed both read as detailed |
| ChatV2.CombinedTextHeader | app/chat_service_v2.py:386 | the combined text starts with the first formatted block |
| ChatV2.SummarizeFallbacks | app/chat_service_v2.py:329-417 | the tree summary wins; no chunks gives the not-indexed message; with no stored record the request uses "Documento", 0 and the general type; a model error gives the first 500 characters and "..." |
| Persistence.PersistenceService.constructor | app/persistence.py:20-26 | both stores start empty |
| Persistence.PersistenceService.SaveDocument | app/persistence.py:47-52 | the document's record is stored under its id |
| Persistence.PersistenceService.GetDocument | app/persistence.py:54-61 | the stored record, or None exactly for an unknown id |
| Persistence.PersistenceService.GetAllDocuments | app/persistence.py:63-67 | exactly the stored records |
| Persistence.PersistenceService.GetDocumentsByCategory | app/persistence.py:69-77 | exactly the stored documents whose category field is the category's value |
| Persistence.PersistenceService.GetDocumentsByParent | app/persistence.py:79-87 | exactly the stored documents whose parent_id is the given id |
| Persistence.PersistenceService.UpdateDocument | app/persistence.py:89-100 | false and nothing changed for an unknown id; otherwise the record takes the updates and the new updated_at |
| Persistence.Updated | app/persistence.py:96-97 | an update sets updated_at, takes the new fields and keeps the old ones |
| Persistence.PersistenceService.DeleteDocument | app/persistence.py:102-111 | true iff the id was stored; the id is gone and nothing else changes |
| Persistence.PersistenceService.SetDocumentIndexed | app/persistence.py:113-121 | a stored document takes the indexing fields and the update time; an unknown one is left alone |
| Persistence.IndexedRecord | app/persistence.py:113-121 | the indexed record is marked indexed, with count, layers and both times, and keeps its other fields |
| Persistence.Matching | app/persistence.py:69-87 | the matching records are exactly those whose field holds the value |
| Persistence.CategoryQueriesPartition | app/persistence.py:69-77 | a document listed under one category is listed under no other |
| Persistence.SavedDocumentListed | app/persistence.py:47-87 | a saved document is found by its category, and by its parent when it has one |
| Persistence.PersistenceService.SaveNote | app/persistence.py:125-130 | the note's record is stored under its id |
| Persistence.PersistenceService.GetNote | app/persistence.py:132-139 | the stored note, or None exactly for an unknown id |
| Persistence.PersistenceService.GetNotesByDocument | app/persistence.py:141-149 | exactly the notes whose document_id is the document |
| Persistence.PersistenceService.UpdateNote | app/persistence.py:151-162 | false and nothing changed for an unknown id; otherwise the note takes the updates and the new updated_at |
| Persistence.PersistenceService.DeleteNote | app/persistence.py:164-173 | true iff the id was stored; the note is gone and nothing else changes |
| Persistence.PersistenceService.DeleteNotesByDocument | app/persistence.py:175-189 | exactly the document's notes are removed, and their number is returned |
| Persistence.WithoutNotesOf | app/persistence.py:175-189 | the notes kept are exactly those of other documents |
| Persistence.DeleteNotesPartition | app/persistence.py:175-189 | no note of the document is left, every other note is kept, and the count plus the notes kept is the notes there were |
| Models.DocumentRecord | app/models.py:19-32 | the stored record carries the id, the category value and the parent id |
| Models.NoteRecord | app/models.py:54-63 | the stored note carries its id and its document's id |
| Pdf.DetectCategoryFromPath | app/pdf_processor.py:141-152 | juridico, then financeiro, then tecnico wins when it is a part of the path; outros otherwise |
| Pdf.DetectedFolderInPath | app/pdf_processor.py:141-152 | the detected category names a folder of the path, and outros means no category folder |
| Pdf.IsScanned | app/pdf_processor.py:102-114 | an error (division by zero) iff no page is inspected; otherwise scanned iff more than 70% of the inspected pages have under 50 stripped characters |
| Pdf.RatioAboveSeventy | app/pdf_processor.py:114 | the ratio above 0.7 is 10 * scanned above 7 * checked |
| Pdf.ScannedCountBounds | app/pdf_processor.py:109-112 | all pages scanned-looking count all of them; none counts none |
| Pdf.ExtractText | app/pdf_processor.py:48-59 | exactly the non-blank requested pages, keyed by page number, with their text |
| Pdf.ExtractTextWithLayout | app/pdf_processor.py:61-71 | exactly the non-blank pages, keyed by page number, with their text |

## Left out

- Embeddings, FAISS search, KMeans, cosine similarity, the tokenizer and the chat models are external models. They are parameters: FAISS hits as (position, score) pairs, KMeans as a labelling function, similarity as a function of text, token counts as a function, chat replies as a completed text or a raised error.
- File I/O is not modelled: the FAISS index file, the metadata pickle, documents.json and notes.json, and the RAPTOR tree JSON. There is no save_raptor_tree or load_raptor_tree; the loaded tree is a parameter.
- PDF reading, OCR, table extraction, document info and directory listing (pdf_processor.py:26-46, 73-100, 116-139, 154-183) need the PDF library and the file system. The page texts are a parameter.
- Lazy `initialize()` calls and the `initialized` flags are left out. Every service is modelled as initialised.
- The long prompt templates of prompts.py are not modelled: get_chat_prompt_with_cot, get_chat_prompt_simple, get_summary_prompt, get_chat_prompt_with_fewshot and the body of get_raptor_prompt. ChatV2 sends a structured request carrying the fields those templates read. Only the history lines and the level descriptions of those templates are modelled.
- Rag.RagService.TotalChunks: get_index_stats is modelled only for total_chunks, as the FAISS count. Its other fields are not modelled.
- Scores are `real`, not floating point. Rounding is not modelled.
- `str.lower()` is modelled for ASCII and Latin-1 letters only. Whitespace for `split()` and `strip()` is the ASCII set.
- Timestamps are parameters, as their ISO strings.
- Dictionary iteration order is not modelled:
  - Persistence.PersistenceService.GetAllDocuments returns a set.
  - The by-category, by-parent and by-document queries return sub-maps.
  - The chunk dictionary is visited in position-list order. For entries added by add_documents that is insertion order.
- Persistence.PersistenceService.GetDocument, GetNote: the pydantic re-validation of the stored record is not modelled. The stored record itself is returned.
- Rag.RagService.VectorSearch: the model reads the FAISS answer hit by hit, as the first row of `indices` and `scores`. As written, rag_service.py:104-119 passes the 1-D query embedding to `search` and loops over the rows of the 2-D result, not over its hits. The model follows the evidently intended per-hit reading.
- Persistence.PersistenceService.SaveDocument, SaveNote: the stored record has the timestamps as ISO strings, the form `model_dump(mode="json")` gives. As written, `_save_json` (persistence.py:40-43) passes `model_dump()` output with `datetime` values to `json.dump` without a `default=`. That raises TypeError after the file has been opened for writing. The model stores the evidently intended serialisation.
- Print statements and log messages are not modelled.

## Findings

| source | as written | input that shows it | evidently intended | confidence | as-written member | corrected member |
|---|---|---|---|---|---|---|
| app/chat_service_v2.py:232-293 | When the caller gives no doc_metadata, chat takes persistence.get_document, a DocumentMetadata object, and then reads it with dictionary `.get` | a stored document, doc_metadata None, a non-empty retrieval: AttributeError instead of an answer | read the stored document's title, page count and category as its fields | high (not executed) | ChatV2.StoredDocumentLookup | ChatV2.ChatPaths |
| app/raptor_service.py:187-189 | Level-1 children are named `chunk_{i}` with i the position inside the cluster | a level-1 cluster with members [1, 3] gets children chunk_0 and chunk_1 | `chunk_{c}` for each member c, as the upper levels already do | high (not executed) | Raptor.ChildrenAsWrittenByPosition | Raptor.ChildrenListed |
