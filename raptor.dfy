/** The RAPTOR summary tree of one document: level 0 holds the chunks, and
    each higher level holds one LLM summary per K-Means cluster of the level
    below (app/raptor_service.py). The embedding model, K-Means and the chat
    model are oracles: `kmeans(texts, k)` is the label list fit_predict
    returns, `llm(group)` the reply to the summary prompt built from a group,
    `sim(text)` the cosine similarity of the query with a text. */
module Raptor {
  import opened Common
  import opened Ranking

  /** settings.raptor_max_depth and settings.raptor_min_chunks */
  const DefaultMaxDepth := 3
  const DefaultMinChunks := 4

  // ---------------------------------------------------------------- the tree

  /** An element of tree["nodes"]; the level-0 nodes carry no "children". */
  datatype Node =
    | ChunkNode(id: string, text: string)
    | SummaryNode(id: string, text: string, level: nat, children: seq<string>)

  /** One entry of tree["summaries"]: an insertion-ordered dict id -> text. */
  type Level = seq<(string, string)>

  /** tree["summaries"] and tree["clusters"] are keyed by f"level_{L}", which
      is one-to-one in L, so they are keyed by L here. */
  datatype Tree = Tree(nodes: seq<Node>, summaries: map<int, Level>, clusters: map<int, seq<seq<nat>>>, depth: int)

  function Keys(l: Level): seq<string> {
    seq(|l|, i requires 0 <= i < |l| => l[i].0)
  }

  /** list(level.values()) */
  function Texts(l: Level): seq<string> {
    seq(|l|, i requires 0 <= i < |l| => l[i].1)
  }

  /** f"chunk_{i}" */
  function ChunkName(i: nat): string {
    "chunk_" + NatToString(i)
  }

  /** f"summary_level{level}_cluster{j}" */
  function SummaryId(level: nat, j: nat): string {
    "summary_level" + NatToString(level) + "_cluster" + NatToString(j)
  }

  lemma ChunkNameInjective(i: nat, j: nat)
    requires i != j
    ensures ChunkName(i) != ChunkName(j)
  {
    SuffixNumberInjective("chunk_", i, j);
  }

  /** The clusters of one level get distinct ids, so the level's dict has one
      entry per cluster. */
  lemma SummaryIdInjective(level: nat, i: nat, j: nat)
    requires i != j
    ensures SummaryId(level, i) != SummaryId(level, j)
  {
    SuffixNumberInjective("summary_level" + NatToString(level) + "_cluster", i, j);
  }

  /** tree["summaries"]["level_0"] */
  function Level0(chunks: seq<string>): Level {
    seq(|chunks|, i requires 0 <= i < |chunks| => (ChunkName(i), chunks[i]))
  }

  /** The level-0 part of tree["nodes"]. */
  function ChunkNodes(chunks: seq<string>): seq<Node> {
    seq(|chunks|, i requires 0 <= i < |chunks| => ChunkNode(ChunkName(i), chunks[i]))
  }

  // ---------------------------------------------------------------- cluster_chunks

  /** A label list as sklearn's fit_predict returns it for n inputs and k
      clusters: one label per input, each below k. */
  predicate LabelsFit(labels: seq<nat>, n: nat, k: nat) {
    |labels| == n && forall i :: 0 <= i < n ==> labels[i] < k
  }

  /** What the model relies on from K-Means: for k >= 1 and at least k
      inputs it labels every input with a cluster below k. */
  ghost predicate IsKMeans(kmeans: (seq<string>, nat) -> seq<nat>) {
    forall c: seq<string>, k: nat :: 1 <= k <= |c| ==> LabelsFit(kmeans(c, k), |c|, k)
  }

  /** The position of a label among the group keys, or |g| when it is new. */
  function FindGroup(g: seq<(nat, seq<nat>)>, lab: nat): (p: nat)
    ensures p <= |g|
    ensures p < |g| ==> g[p].0 == lab
    ensures forall q :: 0 <= q < p ==> g[q].0 != lab
    decreases |g|
  {
    if |g| == 0 then 0
    else if g[0].0 == lab then 0
    else 1 + FindGroup(g[1..], lab)
  }

  /** `clusters[lab].append(i)` on a defaultdict(list), kept as an
      insertion-ordered list of (label, members). */
  function AddMember(g: seq<(nat, seq<nat>)>, lab: nat, i: nat): seq<(nat, seq<nat>)> {
    var p := FindGroup(g, lab);
    if p < |g| then g[p := (lab, g[p].1 + [i])] else g + [(lab, [i])]
  }

  /** The groups after the first n labels. */
  function GroupsUpTo(labels: seq<nat>, n: nat): seq<(nat, seq<nat>)>
    requires n <= |labels|
  {
    if n == 0 then [] else AddMember(GroupsUpTo(labels, n - 1), labels[n - 1], n - 1)
  }

  /** list(clusters.values()) */
  function Values(g: seq<(nat, seq<nat>)>): seq<seq<nat>> {
    seq(|g|, p requires 0 <= p < |g| => g[p].1)
  }

  /** [[i] for i in range(n)] */
  function Singletons(n: nat): seq<seq<nat>> {
    seq(n, i requires 0 <= i < n => [i])
  }

  /** What cluster_chunks(chunks, n_clusters) returns; KMeans refuses fewer
      than one cluster. */
  function Clustering(chunks: seq<string>, nClusters: int, kmeans: (seq<string>, nat) -> seq<nat>): Result<seq<seq<nat>>> {
    if |chunks| < nClusters then Ok(Singletons(|chunks|))
    else if nClusters < 1 then Err(InvalidClusterCount)
    else
      var labels := kmeans(chunks, nClusters);
      Ok(Values(GroupsUpTo(labels, |labels|)))
  }

  predicate Increasing(s: seq<nat>) {
    forall a, b :: 0 <= a < b < |s| ==> s[a] < s[b]
  }

  predicate InGroup(group: seq<nat>, i: nat) {
    i in group
  }

  /** Index i belongs to one of the groups. */
  ghost predicate Covered(cs: seq<seq<nat>>, i: nat) {
    exists p :: 0 <= p < |cs| && InGroup(cs[p], i)
  }

  /** cs splits 0..n-1 into non-empty ascending groups, each index in exactly
      one group, the groups ordered by their first member. */
  ghost predicate Partition(cs: seq<seq<nat>>, n: nat) {
    (forall p :: 0 <= p < |cs| ==>
       |cs[p]| > 0 && Increasing(cs[p]) && forall j :: 0 <= j < |cs[p]| ==> cs[p][j] < n)
    && (forall p, q :: 0 <= p < q < |cs| && |cs[p]| > 0 && |cs[q]| > 0 ==> cs[p][0] < cs[q][0])
    && (forall i :: 0 <= i < n ==> Covered(cs, i))
    && (forall p, q, i :: 0 <= p < |cs| && 0 <= q < |cs| && InGroup(cs[p], i) && InGroup(cs[q], i) ==> p == q)
  }

  /** Every group is non-empty and ascending, and holds indices below n that
      carry the group's label. */
  ghost predicate GroupsLabelled(g: seq<(nat, seq<nat>)>, labels: seq<nat>, n: nat)
    requires n <= |labels|
  {
    forall p :: 0 <= p < |g| ==>
      |g[p].1| > 0 && Increasing(g[p].1)
      && forall j :: 0 <= j < |g[p].1| ==> g[p].1[j] < n && labels[g[p].1[j]] == g[p].0
  }

  ghost predicate KeysDistinct(g: seq<(nat, seq<nat>)>) {
    forall p, q :: 0 <= p < q < |g| ==> g[p].0 != g[q].0
  }

  ghost predicate FirstsAscending(g: seq<(nat, seq<nat>)>) {
    forall p, q :: 0 <= p < q < |g| && |g[p].1| > 0 && |g[q].1| > 0 ==> g[p].1[0] < g[q].1[0]
  }

  /** The invariant of the grouping loop after n labels. */
  ghost predicate Grouped(g: seq<(nat, seq<nat>)>, labels: seq<nat>, n: nat)
    requires n <= |labels|
  {
    GroupsLabelled(g, labels, n) && KeysDistinct(g) && FirstsAscending(g)
    && (forall i :: 0 <= i < n ==> HasGroup(g, i))
  }

  ghost predicate HasGroup(g: seq<(nat, seq<nat>)>, i: nat) {
    exists p :: 0 <= p < |g| && InGroup(g[p].1, i)
  }

  /** Appending index n to the existing group p of its label. */
  lemma GroupedJoin(g: seq<(nat, seq<nat>)>, labels: seq<nat>, n: nat)
    requires n < |labels| && Grouped(g, labels, n) && FindGroup(g, labels[n]) < |g|
    ensures Grouped(AddMember(g, labels[n], n), labels, n + 1)
  {
    var p := FindGroup(g, labels[n]);
    var r := g[p := (labels[n], g[p].1 + [n])];
    assert AddMember(g, labels[n], n) == r;
    JoinLabelled(g, labels, n, p);
    JoinKeys(g, p, labels[n], g[p].1 + [n]);
    JoinFirsts(g, p, labels[n], n);
    JoinCovers(g, labels, n, p, r);
  }

  lemma JoinLabelled(g: seq<(nat, seq<nat>)>, labels: seq<nat>, n: nat, p: nat)
    requires n < |labels| && GroupsLabelled(g, labels, n) && p < |g| && g[p].0 == labels[n]
    ensures GroupsLabelled(g[p := (labels[n], g[p].1 + [n])], labels, n + 1)
  {
    var r := g[p := (labels[n], g[p].1 + [n])];
    forall q | 0 <= q < |r|
      ensures |r[q].1| > 0 && Increasing(r[q].1)
              && forall j :: 0 <= j < |r[q].1| ==> r[q].1[j] < n + 1 && labels[r[q].1[j]] == r[q].0
    {
      if q == p {
        var old_ := g[p].1;
        assert forall j :: 0 <= j < |old_| ==> r[p].1[j] == old_[j] && old_[j] < n;
        assert r[p].1[|old_|] == n;
      } else {
        assert r[q] == g[q];
      }
    }
  }

  lemma JoinKeys(g: seq<(nat, seq<nat>)>, p: nat, lab: nat, members: seq<nat>)
    requires KeysDistinct(g) && p < |g| && g[p].0 == lab
    ensures KeysDistinct(g[p := (lab, members)])
  {
    var r := g[p := (lab, members)];
    assert forall q :: 0 <= q < |g| ==> r[q].0 == g[q].0;
  }

  lemma JoinFirsts(g: seq<(nat, seq<nat>)>, p: nat, lab: nat, i: nat)
    requires FirstsAscending(g) && p < |g| && |g[p].1| > 0
    ensures FirstsAscending(g[p := (lab, g[p].1 + [i])])
  {
    var r := g[p := (lab, g[p].1 + [i])];
    assert forall q :: 0 <= q < |g| ==>
             (|r[q].1| > 0 <==> |g[q].1| > 0) && (|g[q].1| > 0 ==> r[q].1[0] == g[q].1[0]);
  }

  lemma JoinCovers(g: seq<(nat, seq<nat>)>, labels: seq<nat>, n: nat, p: nat, r: seq<(nat, seq<nat>)>)
    requires n < |labels| && p < |g| && forall i :: 0 <= i < n ==> HasGroup(g, i)
    requires r == g[p := (labels[n], g[p].1 + [n])]
    ensures forall i :: 0 <= i < n + 1 ==> HasGroup(r, i)
  {
    forall i | 0 <= i < n + 1 ensures HasGroup(r, i) {
      if i == n {
        assert r[p].1[|g[p].1|] == n;
        assert InGroup(r[p].1, i);
      } else {
        assert HasGroup(g, i);
        var q :| 0 <= q < |g| && InGroup(g[q].1, i);
        assert g[q].1 <= r[q].1;
        assert InGroup(r[q].1, i);
      }
    }
  }

  /** Index n opens a new group for a label not seen before. */
  lemma GroupedOpen(g: seq<(nat, seq<nat>)>, labels: seq<nat>, n: nat)
    requires n < |labels| && Grouped(g, labels, n) && FindGroup(g, labels[n]) == |g|
    ensures Grouped(AddMember(g, labels[n], n), labels, n + 1)
  {
    var r := g + [(labels[n], [n])];
    assert AddMember(g, labels[n], n) == r;
    OpenLabelled(g, labels, n);
    OpenKeys(g, labels[n], [n]);
    OpenFirsts(g, labels, n);
    OpenCovers(g, labels, n);
  }

  lemma OpenLabelled(g: seq<(nat, seq<nat>)>, labels: seq<nat>, n: nat)
    requires n < |labels| && GroupsLabelled(g, labels, n)
    ensures GroupsLabelled(g + [(labels[n], [n])], labels, n + 1)
  {
    var r := g + [(labels[n], [n])];
    forall q | 0 <= q < |r|
      ensures |r[q].1| > 0 && Increasing(r[q].1)
              && forall j :: 0 <= j < |r[q].1| ==> r[q].1[j] < n + 1 && labels[r[q].1[j]] == r[q].0
    {
      if q < |g| {
        assert r[q] == g[q];
      }
    }
  }

  lemma OpenKeys(g: seq<(nat, seq<nat>)>, lab: nat, members: seq<nat>)
    requires KeysDistinct(g) && forall q :: 0 <= q < |g| ==> g[q].0 != lab
    ensures KeysDistinct(g + [(lab, members)])
  {
    var r := g + [(lab, members)];
    assert forall q :: 0 <= q < |g| ==> r[q] == g[q];
  }

  lemma OpenFirsts(g: seq<(nat, seq<nat>)>, labels: seq<nat>, n: nat)
    requires n < |labels| && FirstsAscending(g) && GroupsLabelled(g, labels, n)
    ensures FirstsAscending(g + [(labels[n], [n])])
  {
    var r := g + [(labels[n], [n])];
    assert forall q :: 0 <= q < |g| ==> r[q] == g[q] && g[q].1[0] < n;
  }

  lemma OpenCovers(g: seq<(nat, seq<nat>)>, labels: seq<nat>, n: nat)
    requires n < |labels| && forall i :: 0 <= i < n ==> HasGroup(g, i)
    ensures forall i :: 0 <= i < n + 1 ==> HasGroup(g + [(labels[n], [n])], i)
  {
    var r := g + [(labels[n], [n])];
    forall i | 0 <= i < n + 1 ensures HasGroup(r, i) {
      if i == n {
        assert InGroup(r[|g|].1, i);
      } else {
        assert HasGroup(g, i);
        var q :| 0 <= q < |g| && InGroup(g[q].1, i);
        assert r[q] == g[q];
        assert InGroup(r[q].1, i);
      }
    }
  }

  lemma {:induction false} GroupsUpToGrouped(labels: seq<nat>, n: nat)
    requires n <= |labels|
    ensures Grouped(GroupsUpTo(labels, n), labels, n)
    decreases n
  {
    if n > 0 {
      GroupsUpToGrouped(labels, n - 1);
      var g := GroupsUpTo(labels, n - 1);
      GroupedAdd(g, labels, n - 1);
      assert GroupsUpTo(labels, n) == AddMember(g, labels[n - 1], n - 1);
    }
  }

  /** Adding index n to the groups of the first n labels groups n + 1 labels. */
  lemma GroupedAdd(g: seq<(nat, seq<nat>)>, labels: seq<nat>, n: nat)
    requires n < |labels| && Grouped(g, labels, n)
    ensures Grouped(AddMember(g, labels[n], n), labels, n + 1)
  {
    if FindGroup(g, labels[n]) < |g| {
      GroupedJoin(g, labels, n);
    } else {
      GroupedOpen(g, labels, n);
    }
  }

  /** Distinct naturals below k number at most k. */
  lemma {:induction false} DistinctBelow(s: seq<nat>, k: nat)
    requires forall a, b :: 0 <= a < b < |s| ==> s[a] != s[b]
    requires forall a :: 0 <= a < |s| ==> s[a] < k
    ensures |s| <= k
    decreases k
  {
    if |s| > 0 {
      assert s[0] < k;
    }
    if k == 0 {
    } else if exists a :: 0 <= a < |s| && s[a] == k - 1 {
      var a :| 0 <= a < |s| && s[a] == k - 1;
      var t := s[..a] + s[a + 1..];
      assert forall b :: 0 <= b < |t| ==> t[b] == (if b < a then s[b] else s[b + 1]);
      DistinctBelow(t, k - 1);
    } else {
      DistinctBelow(s, k - 1);
    }
  }

  /** An ascending list of naturals below n has at most n elements. */
  lemma {:induction false} IncreasingBelow(s: seq<nat>, n: nat)
    requires Increasing(s)
    requires forall j :: 0 <= j < |s| ==> s[j] < n
    ensures |s| <= n
    decreases |s|
  {
    if |s| > 0 {
      var t := s[..|s| - 1];
      IncreasingBelow(t, s[|s| - 1]);
    }
  }

  lemma GroupedPartition(g: seq<(nat, seq<nat>)>, labels: seq<nat>, n: nat)
    requires n <= |labels| && Grouped(g, labels, n)
    ensures Partition(Values(g), n)
  {
    var cs := Values(g);
    forall i | 0 <= i < n ensures Covered(cs, i) {
      assert HasGroup(g, i);
      var p :| 0 <= p < |g| && InGroup(g[p].1, i);
      assert InGroup(cs[p], i);
    }
    forall p, q, i: nat | 0 <= p < |cs| && 0 <= q < |cs| && InGroup(cs[p], i) && InGroup(cs[q], i) ensures p == q {
      var a :| 0 <= a < |g[p].1| && g[p].1[a] == i;
      var b :| 0 <= b < |g[q].1| && g[q].1[b] == i;
      assert g[p].0 == labels[i] == g[q].0;
    }
  }

  lemma SingletonsPartition(n: nat)
    ensures Partition(Singletons(n), n)
  {
    var cs := Singletons(n);
    forall i | 0 <= i < n ensures Covered(cs, i) {
      assert InGroup(cs[i], i);
    }
  }

  /** cluster_chunks returns a partition of the chunk indices into at most
      n_clusters groups (ascending within a group, groups in order of first
      appearance of their lab); it fails only when n_clusters < 1 and there
      are at least n_clusters chunks. */
  lemma ClusteringPartition(chunks: seq<string>, nClusters: int, kmeans: (seq<string>, nat) -> seq<nat>)
    requires IsKMeans(kmeans)
    ensures Clustering(chunks, nClusters, kmeans).Err? <==> nClusters <= |chunks| && nClusters < 1
    ensures Clustering(chunks, nClusters, kmeans).Ok? ==>
              var cs := Clustering(chunks, nClusters, kmeans).value;
              Partition(cs, |chunks|) && |cs| <= Max(nClusters, 0)
              && forall p :: 0 <= p < |cs| ==> |cs[p]| <= |chunks|
  {
    var res := Clustering(chunks, nClusters, kmeans);
    if |chunks| < nClusters {
      SingletonsPartition(|chunks|);
    } else if nClusters >= 1 {
      var labels := kmeans(chunks, nClusters);
      assert LabelsFit(labels, |chunks|, nClusters);
      var g := GroupsUpTo(labels, |labels|);
      GroupsUpToGrouped(labels, |labels|);
      GroupedPartition(g, labels, |labels|);
      var keys := seq(|g|, p requires 0 <= p < |g| => g[p].0);
      forall a | 0 <= a < |keys| ensures keys[a] < nClusters {
        assert labels[g[a].1[0]] == g[a].0;
      }
      DistinctBelow(keys, nClusters);
      forall p | 0 <= p < |g| ensures |g[p].1| <= |chunks| {
        IncreasingBelow(g[p].1, |chunks|);
      }
    }
  }

  /** cluster_chunks: group the chunk indices by their K-Means lab. */
  method ClusterChunks(chunks: seq<string>, nClusters: int, kmeans: (seq<string>, nat) -> seq<nat>)
    returns (r: Result<seq<seq<nat>>>)
    ensures r == Clustering(chunks, nClusters, kmeans)
  {
    if |chunks| < nClusters {
      return Ok(Singletons(|chunks|));
    }
    if nClusters < 1 {
      return Err(InvalidClusterCount);
    }
    var labels := kmeans(chunks, nClusters);
    var groups: seq<(nat, seq<nat>)> := [];
    var i := 0;
    while i < |labels|
      invariant 0 <= i <= |labels|
      invariant groups == GroupsUpTo(labels, i)
    {
      var lab := labels[i];
      var p := FindGroup(groups, lab);
      if p < |groups| {
        groups := groups[p := (lab, groups[p].1 + [i])];
      } else {
        groups := groups + [(lab, [i])];
      }
      i := i + 1;
    }
    r := Ok(Values(groups));
  }

  // ---------------------------------------------------------------- summarize_chunk_group

  /** summarize_chunk_group: the LLM's stripped reply; without a client the
      first three chunks joined by a space; when the call raises, the first
      two. */
  function SummarizeChunkGroup(chunks: seq<string>, hasLlm: bool, reply: LlmReply): string {
    if !hasLlm then Join(" ", Take(chunks, 3))
    else match reply
      case Completed(text) => text
      case Raised(_) => Join(" ", Take(chunks, 2))
  }

  /** Both fallbacks start with the first chunk, and the one used after an
      exception is a prefix of the one used without a client. */
  lemma FallbackSummaries(chunks: seq<string>, message: string)
    ensures SummarizeChunkGroup(chunks, false, Raised(message)) == Join(" ", Take(chunks, 3))
    ensures SummarizeChunkGroup(chunks, true, Raised(message)) == Join(" ", Take(chunks, 2))
    ensures StartsWith(SummarizeChunkGroup(chunks, false, Raised(message)),
                       SummarizeChunkGroup(chunks, true, Raised(message)))
    ensures |chunks| > 0 ==> StartsWith(SummarizeChunkGroup(chunks, true, Raised(message)), chunks[0])
    ensures |chunks| <= 2 ==> SummarizeChunkGroup(chunks, true, Raised(message)) == SummarizeChunkGroup(chunks, false, Raised(message))
  {
    var two, three := Join(" ", Take(chunks, 2)), Join(" ", Take(chunks, 3));
    if |chunks| == 0 {
    } else if |chunks| == 1 {
      assert Take(chunks, 2) == Take(chunks, 3) == [chunks[0]];
      assert two[..|chunks[0]|] == chunks[0];
    } else if |chunks| == 2 {
      assert Take(chunks, 2) == Take(chunks, 3) == chunks;
      assert Join(" ", chunks[1..]) == chunks[1];
      assert two == chunks[0] + " " + chunks[1];
      assert two[..|chunks[0]|] == chunks[0];
      assert three[..|two|] == two;
    } else {
      var t2, t3 := Take(chunks, 2), Take(chunks, 3);
      assert t2 == [chunks[0], chunks[1]] && t3 == [chunks[0], chunks[1], chunks[2]];
      assert Join(" ", t2[1..]) == chunks[1];
      assert two == chunks[0] + " " + chunks[1];
      assert t3[1..][1..] == [chunks[2]];
      assert Join(" ", t3[1..]) == chunks[1] + " " + chunks[2];
      assert three == chunks[0] + " " + (chunks[1] + " " + chunks[2]);
      assert three == two + " " + chunks[2];
      assert three[..|two|] == two;
      assert two[..|chunks[0]|] == chunks[0];
    }
  }

  // ---------------------------------------------------------------- build_raptor_tree

  predicate MembersBelow(cs: seq<seq<nat>>, n: nat) {
    forall p, j :: 0 <= p < |cs| && 0 <= j < |cs[p]| ==> cs[p][j] < n
  }

  /** [current_chunks[i] for i in cluster_indices] */
  function Pick(current: seq<string>, cl: seq<nat>): seq<string>
    requires forall j :: 0 <= j < |cl| ==> cl[j] < |current|
  {
    seq(|cl|, j requires 0 <= j < |cl| => current[cl[j]])
  }

  /** The summary written for one cluster of the current level. */
  function Summary(current: seq<string>, cl: seq<nat>, hasLlm: bool, llm: seq<string> -> LlmReply): string
    requires forall j :: 0 <= j < |cl| ==> cl[j] < |current|
  {
    var group := Pick(current, cl);
    SummarizeChunkGroup(group, hasLlm, llm(group))
  }

  /** The "children" of a summary node as build_raptor_tree writes them: at
      level 1 `chunk_{i}` for the position i inside the cluster, above it the
      previous level's summary id of each member. */
  function ChildrenAsWritten(level: nat, cl: seq<nat>): seq<string>
    requires level >= 1
  {
    seq(|cl|, i requires 0 <= i < |cl| => if level == 1 then ChunkName(i) else SummaryId(level - 1, cl[i]))
  }

  /** The "children" of a summary node as evidently intended: the id, on the
      level below, of each member of its cluster (`chunk_{c}` at level 1). */
  function Children(level: nat, cl: seq<nat>): seq<string>
    requires level >= 1
  {
    seq(|cl|, i requires 0 <= i < |cl| => if level == 1 then ChunkName(cl[i]) else SummaryId(level - 1, cl[i]))
  }

  /** The summaries dict written for one level. */
  function LevelSummaries(level: nat, current: seq<string>, cs: seq<seq<nat>>, hasLlm: bool, llm: seq<string> -> LlmReply): Level
    requires level >= 1 && MembersBelow(cs, |current|)
  {
    seq(|cs|, p requires 0 <= p < |cs| => (SummaryId(level, p), Summary(current, cs[p], hasLlm, llm)))
  }

  /** The nodes appended for one level. */
  function LevelNodes(level: nat, s: Level, cs: seq<seq<nat>>): seq<Node>
    requires level >= 1 && |s| == |cs|
  {
    seq(|cs|, p requires 0 <= p < |cs| => SummaryNode(s[p].0, s[p].1, level, ChildrenAsWritten(level, cs[p])))
  }

  /** max(2, count // min_chunks) */
  function NClusters(count: nat, minChunks: int): int
    requires minChunks != 0
  {
    Max(2, FloorDiv(count, minChunks))
  }

  predicate LevelsPresent(summaries: map<int, Level>, clusters: map<int, seq<seq<nat>>>, top: nat) {
    forall L :: 1 <= L <= top ==> L in summaries && L in clusters && |summaries[L]| == |clusters[L]|
  }

  /** The nodes of levels 1..top in the order the loop appends them. */
  function NodesUpTo(summaries: map<int, Level>, clusters: map<int, seq<seq<nat>>>, top: nat): seq<Node>
    requires LevelsPresent(summaries, clusters, top)
    decreases top
  {
    if top == 0 then []
    else NodesUpTo(summaries, clusters, top - 1) + LevelNodes(top, summaries[top], clusters[top])
  }

  /** Level L was built from the level below it: the loop guard held, the
      clusters are what cluster_chunks returned for max(2, count //
      min_chunks) clusters, and the summaries are one per cluster. */
  ghost predicate LevelBuilt(L: nat, prev: Level, s: Level, cs: seq<seq<nat>>, maxDepth: int, minChunks: int,
                             kmeans: (seq<string>, nat) -> seq<nat>, hasLlm: bool, llm: seq<string> -> LlmReply)
    requires L >= 1
  {
    L <= maxDepth && |prev| >= minChunks && minChunks != 0
    && Clustering(Texts(prev), NClusters(|prev|, minChunks), kmeans) == Ok(cs)
    && MembersBelow(cs, |prev|)
    && s == LevelSummaries(L, Texts(prev), cs, hasLlm, llm)
  }

  /** The summaries and clusters after levels 0..top: exactly those summary
      levels and levels 1..top of clusters, level 0 holding the chunks and
      each higher level built from the one below. */
  ghost predicate LevelsBuiltUpTo(summaries: map<int, Level>, clusters: map<int, seq<seq<nat>>>, top: nat,
                                  chunks: seq<string>, maxDepth: int, minChunks: int,
                                  kmeans: (seq<string>, nat) -> seq<nat>, hasLlm: bool, llm: seq<string> -> LlmReply)
  {
    (forall L :: L in summaries <==> 0 <= L <= top)
    && (forall L :: L in clusters <==> 1 <= L <= top)
    && summaries[0] == Level0(chunks)
    && (forall L :: 1 <= L <= top ==>
          LevelBuilt(L, summaries[L - 1], summaries[L], clusters[L], maxDepth, minChunks, kmeans, hasLlm, llm))
    && LevelsPresent(summaries, clusters, top)
  }

  /** The tree after levels 0..top, with the nodes listed level by level. */
  ghost predicate Built(nodes: seq<Node>, summaries: map<int, Level>, clusters: map<int, seq<seq<nat>>>, top: nat,
                        chunks: seq<string>, maxDepth: int, minChunks: int,
                        kmeans: (seq<string>, nat) -> seq<nat>, hasLlm: bool, llm: seq<string> -> LlmReply)
  {
    LevelsBuiltUpTo(summaries, clusters, top, chunks, maxDepth, minChunks, kmeans, hasLlm, llm)
    && nodes == ChunkNodes(chunks) + NodesUpTo(summaries, clusters, top)
  }

  lemma {:induction false} NodesUpToFrame(sm: map<int, Level>, cl: map<int, seq<seq<nat>>>,
                                          sm': map<int, Level>, cl': map<int, seq<seq<nat>>>, top: nat)
    requires LevelsPresent(sm, cl, top)
    requires forall L :: 1 <= L <= top ==> L in sm' && L in cl' && sm'[L] == sm[L] && cl'[L] == cl[L]
    ensures LevelsPresent(sm', cl', top)
    ensures NodesUpTo(sm', cl', top) == NodesUpTo(sm, cl, top)
    decreases top
  {
    if top > 0 {
      NodesUpToFrame(sm, cl, sm', cl', top - 1);
    }
  }

  lemma LevelsStep(summaries: map<int, Level>, clusters: map<int, seq<seq<nat>>>, top: nat,
                   chunks: seq<string>, maxDepth: int, minChunks: int,
                   kmeans: (seq<string>, nat) -> seq<nat>, hasLlm: bool, llm: seq<string> -> LlmReply,
                   s: Level, cs: seq<seq<nat>>)
    requires LevelsBuiltUpTo(summaries, clusters, top, chunks, maxDepth, minChunks, kmeans, hasLlm, llm)
    requires LevelBuilt(top + 1, summaries[top], s, cs, maxDepth, minChunks, kmeans, hasLlm, llm)
    ensures LevelsBuiltUpTo(summaries[top + 1 := s], clusters[top + 1 := cs], top + 1,
                            chunks, maxDepth, minChunks, kmeans, hasLlm, llm)
  {
    var sm, cl := summaries[top + 1 := s], clusters[top + 1 := cs];
    assert forall L :: L in sm <==> 0 <= L <= top + 1;
    assert forall L :: L in cl <==> 1 <= L <= top + 1;
    assert sm[0] == Level0(chunks);
    assert |s| == |cs|;
    assert LevelsPresent(sm, cl, top + 1);
    forall L | 1 <= L <= top + 1
      ensures LevelBuilt(L, sm[L - 1], sm[L], cl[L], maxDepth, minChunks, kmeans, hasLlm, llm)
    {
      if L <= top {
        assert sm[L - 1] == summaries[L - 1] && sm[L] == summaries[L] && cl[L] == clusters[L];
      }
    }
  }

  /** One iteration of the builder's loop keeps Built. */
  lemma BuiltStep(nodes: seq<Node>, summaries: map<int, Level>, clusters: map<int, seq<seq<nat>>>, top: nat,
                  chunks: seq<string>, maxDepth: int, minChunks: int,
                  kmeans: (seq<string>, nat) -> seq<nat>, hasLlm: bool, llm: seq<string> -> LlmReply,
                  s: Level, cs: seq<seq<nat>>)
    requires Built(nodes, summaries, clusters, top, chunks, maxDepth, minChunks, kmeans, hasLlm, llm)
    requires LevelBuilt(top + 1, summaries[top], s, cs, maxDepth, minChunks, kmeans, hasLlm, llm)
    ensures Built(nodes + LevelNodes(top + 1, s, cs), summaries[top + 1 := s], clusters[top + 1 := cs], top + 1,
                  chunks, maxDepth, minChunks, kmeans, hasLlm, llm)
  {
    LevelsStep(summaries, clusters, top, chunks, maxDepth, minChunks, kmeans, hasLlm, llm, s, cs);
    NodesStep(summaries, clusters, top, s, cs);
    AppendAssoc(ChunkNodes(chunks), NodesUpTo(summaries, clusters, top), LevelNodes(top + 1, s, cs));
  }

  /** Adding level top+1 appends its nodes to those of levels 1..top. */
  lemma NodesStep(summaries: map<int, Level>, clusters: map<int, seq<seq<nat>>>, top: nat, s: Level, cs: seq<seq<nat>>)
    requires LevelsPresent(summaries, clusters, top) && |s| == |cs|
    ensures LevelsPresent(summaries[top + 1 := s], clusters[top + 1 := cs], top + 1)
    ensures NodesUpTo(summaries[top + 1 := s], clusters[top + 1 := cs], top + 1)
            == NodesUpTo(summaries, clusters, top) + LevelNodes(top + 1, s, cs)
  {
    var sm, cl := summaries[top + 1 := s], clusters[top + 1 := cs];
    NodesUpToFrame(summaries, clusters, sm, cl, top);
    assert sm[top + 1] == s && cl[top + 1] == cs;
  }

  /** The summaries of one level and the nodes appended for it (the inner
      loop of build_raptor_tree). */
  method SummarizeLevel(level: nat, current: seq<string>, cs: seq<seq<nat>>, hasLlm: bool, llm: seq<string> -> LlmReply)
    returns (summaries: Level, added: seq<Node>)
    requires level >= 1 && MembersBelow(cs, |current|)
    ensures summaries == LevelSummaries(level, current, cs, hasLlm, llm)
    ensures added == LevelNodes(level, summaries, cs)
  {
    summaries := [];
    added := [];
    var p := 0;
    while p < |cs|
      invariant 0 <= p <= |cs|
      invariant |summaries| == p && |added| == p
      invariant forall q :: 0 <= q < p ==> summaries[q] == (SummaryId(level, q), Summary(current, cs[q], hasLlm, llm))
      invariant forall q :: 0 <= q < p ==> added[q] == SummaryNode(summaries[q].0, summaries[q].1, level, ChildrenAsWritten(level, cs[q]))
    {
      var group := Pick(current, cs[p]);
      var summary := SummarizeChunkGroup(group, hasLlm, llm(group));
      var id := SummaryId(level, p);
      summaries := summaries + [(id, summary)];
      added := added + [SummaryNode(id, summary, level, ChildrenAsWritten(level, cs[p]))];
      p := p + 1;
    }
  }

  /** build_raptor_tree. It fails (ZeroDivisionError) exactly when min_chunks
      is 0 and the loop is entered; otherwise the tree is Built to its depth,
      and the loop stopped because max_depth was reached or the top level has
      fewer than min_chunks entries. */
  method BuildRaptorTree(chunks: seq<string>, maxDepth: int, minChunks: int,
                         kmeans: (seq<string>, nat) -> seq<nat>, hasLlm: bool, llm: seq<string> -> LlmReply)
    returns (r: Result<Tree>)
    requires IsKMeans(kmeans)
    ensures r.Err? <==> minChunks == 0 && maxDepth >= 1
    ensures r.Ok? ==> 0 <= r.value.depth <= Max(0, maxDepth)
    ensures r.Ok? ==> Built(r.value.nodes, r.value.summaries, r.value.clusters, r.value.depth,
                            chunks, maxDepth, minChunks, kmeans, hasLlm, llm)
    ensures r.Ok? ==> r.value.depth == Max(0, maxDepth) || |r.value.summaries[r.value.depth]| < minChunks
  {
    var nodes := ChunkNodes(chunks);
    var summaries: map<int, Level> := map[0 := Level0(chunks)];
    var clusters: map<int, seq<seq<nat>>> := map[];
    var current := chunks;
    var level := 1;
    assert Texts(Level0(chunks)) == chunks;
    assert nodes == ChunkNodes(chunks) + NodesUpTo(summaries, clusters, 0);
    while level <= maxDepth && |current| >= minChunks
      invariant 1 <= level <= Max(0, maxDepth) + 1
      invariant minChunks == 0 ==> level == 1
      invariant Built(nodes, summaries, clusters, level - 1, chunks, maxDepth, minChunks, kmeans, hasLlm, llm)
      invariant current == Texts(summaries[level - 1])
      decreases maxDepth - level
    {
      if minChunks == 0 {
        return Err(ZeroDivision);
      }
      var nClusters := NClusters(|current|, minChunks);
      var res := ClusterChunks(current, nClusters, kmeans);
      ClusteringPartition(current, nClusters, kmeans);
      var cs := res.value;
      assert MembersBelow(cs, |current|);
      var levelSummaries, added := SummarizeLevel(level, current, cs, hasLlm, llm);
      BuiltStep(nodes, summaries, clusters, level - 1, chunks, maxDepth, minChunks, kmeans, hasLlm, llm, levelSummaries, cs);
      clusters := clusters[level := cs];
      summaries := summaries[level := levelSummaries];
      nodes := nodes + added;
      current := Texts(levelSummaries);
      level := level + 1;
    }
    r := Ok(Tree(nodes, summaries, clusters, level - 1));
  }

  // ---------------------------------------------------------------- what a built tree looks like

  /** The depth never exceeds max(0, max_depth), and no level is built when
      there are fewer than min_chunks chunks. */
  lemma BuiltDepth(nodes: seq<Node>, summaries: map<int, Level>, clusters: map<int, seq<seq<nat>>>, top: nat,
                   chunks: seq<string>, maxDepth: int, minChunks: int,
                   kmeans: (seq<string>, nat) -> seq<nat>, hasLlm: bool, llm: seq<string> -> LlmReply)
    requires Built(nodes, summaries, clusters, top, chunks, maxDepth, minChunks, kmeans, hasLlm, llm)
    ensures top <= Max(0, maxDepth)
    ensures |chunks| < minChunks ==> top == 0
    ensures top > 0 ==> minChunks != 0
  {
    if top > 0 {
      assert LevelBuilt(top, summaries[top - 1], summaries[top], clusters[top], maxDepth, minChunks, kmeans, hasLlm, llm);
      assert LevelBuilt(1, summaries[0], summaries[1], clusters[1], maxDepth, minChunks, kmeans, hasLlm, llm);
      assert |summaries[0]| == |chunks|;
    }
  }

  /** Level L (1 <= L <= depth) was made from an input of at least min_chunks
      texts: its clusters partition the positions of the level below into at
      most max(2, count // min_chunks) groups, and it holds one entry per
      cluster, the j-th with id summary_level{L}_cluster{j} and the summary of
      that cluster's texts; the ids of the level are distinct. */
  lemma BuiltLevel(nodes: seq<Node>, summaries: map<int, Level>, clusters: map<int, seq<seq<nat>>>, top: nat,
                   chunks: seq<string>, maxDepth: int, minChunks: int,
                   kmeans: (seq<string>, nat) -> seq<nat>, hasLlm: bool, llm: seq<string> -> LlmReply, L: nat)
    requires Built(nodes, summaries, clusters, top, chunks, maxDepth, minChunks, kmeans, hasLlm, llm)
    requires IsKMeans(kmeans)
    requires 1 <= L <= top
    ensures L - 1 in summaries && L in summaries && L in clusters
    ensures var prev, s, cs := summaries[L - 1], summaries[L], clusters[L];
      minChunks != 0 && |prev| >= minChunks
      && Partition(cs, |prev|) && |cs| <= NClusters(|prev|, minChunks)
      && |s| == |cs|
      && (forall j :: 0 <= j < |s| ==> s[j].0 == SummaryId(L, j) && s[j].1 == Summary(Texts(prev), cs[j], hasLlm, llm))
      && Distinct(Keys(s))
  {
    var prev, s, cs := summaries[L - 1], summaries[L], clusters[L];
    assert LevelBuilt(L, prev, s, cs, maxDepth, minChunks, kmeans, hasLlm, llm);
    ClusteringPartition(Texts(prev), NClusters(|prev|, minChunks), kmeans);
    forall i, j | 0 <= i < j < |Keys(s)| ensures Keys(s)[i] != Keys(s)[j] {
      SummaryIdInjective(L, i, j);
    }
  }

  /** The nodes of levels 1..top are, one by one, the summary node of some
      cluster of their level. */
  lemma {:induction false} NodesUpToAt(sm: map<int, Level>, cl: map<int, seq<seq<nat>>>, top: nat, k: nat)
    requires LevelsPresent(sm, cl, top)
    requires k < |NodesUpTo(sm, cl, top)|
    ensures var n := NodesUpTo(sm, cl, top)[k];
      n.SummaryNode? && 1 <= n.level <= top
      && exists j :: 0 <= j < |cl[n.level]|
           && n == SummaryNode(sm[n.level][j].0, sm[n.level][j].1, n.level, ChildrenAsWritten(n.level, cl[n.level][j]))
    decreases top
  {
    var prev := NodesUpTo(sm, cl, top - 1);
    var n := NodesUpTo(sm, cl, top)[k];
    if k < |prev| {
      NodesUpToAt(sm, cl, top - 1, k);
      assert n == prev[k];
    } else {
      var j := k - |prev|;
      assert n == LevelNodes(top, sm[top], cl[top])[j];
    }
  }

  /** tree["nodes"] starts with the chunk nodes in input order. */
  lemma BuiltChunkNodes(nodes: seq<Node>, summaries: map<int, Level>, clusters: map<int, seq<seq<nat>>>, top: nat,
                        chunks: seq<string>, maxDepth: int, minChunks: int,
                        kmeans: (seq<string>, nat) -> seq<nat>, hasLlm: bool, llm: seq<string> -> LlmReply)
    requires Built(nodes, summaries, clusters, top, chunks, maxDepth, minChunks, kmeans, hasLlm, llm)
    ensures |chunks| <= |nodes| && nodes[..|chunks|] == ChunkNodes(chunks)
    ensures forall i :: 0 <= i < |chunks| ==> nodes[i] == ChunkNode(ChunkName(i), chunks[i])
    ensures 0 in summaries && Keys(summaries[0]) == seq(|chunks|, i requires 0 <= i < |chunks| => ChunkName(i))
    ensures 0 in summaries && Texts(summaries[0]) == chunks
  {
    assert nodes[..|chunks|] == ChunkNodes(chunks);
  }

  /** The ids of level L are summary_level{L}_cluster{j} in order. */
  predicate SummaryIds(l: Level, L: nat) {
    forall i :: 0 <= i < |l| ==> l[i].0 == SummaryId(L, i)
  }

  lemma BuiltLevelKeys(nodes: seq<Node>, summaries: map<int, Level>, clusters: map<int, seq<seq<nat>>>, top: nat,
                       chunks: seq<string>, maxDepth: int, minChunks: int,
                       kmeans: (seq<string>, nat) -> seq<nat>, hasLlm: bool, llm: seq<string> -> LlmReply, L: nat)
    requires Built(nodes, summaries, clusters, top, chunks, maxDepth, minChunks, kmeans, hasLlm, llm)
    requires 1 <= L <= top
    ensures L in summaries && SummaryIds(summaries[L], L)
  {
    assert LevelBuilt(L, summaries[L - 1], summaries[L], clusters[L], maxDepth, minChunks, kmeans, hasLlm, llm);
  }

  /** Cluster j of level L is an ascending list of positions of level L-1. */
  lemma BuiltCluster(nodes: seq<Node>, summaries: map<int, Level>, clusters: map<int, seq<seq<nat>>>, top: nat,
                     chunks: seq<string>, maxDepth: int, minChunks: int,
                     kmeans: (seq<string>, nat) -> seq<nat>, hasLlm: bool, llm: seq<string> -> LlmReply, L: nat, j: nat)
    requires Built(nodes, summaries, clusters, top, chunks, maxDepth, minChunks, kmeans, hasLlm, llm)
    requires IsKMeans(kmeans)
    requires 1 <= L <= top && j < |clusters[L]|
    ensures Increasing(clusters[L][j]) && forall i :: 0 <= i < |clusters[L][j]| ==> clusters[L][j][i] < |summaries[L - 1]|
  {
    var prev := summaries[L - 1];
    assert LevelBuilt(L, prev, summaries[L], clusters[L], maxDepth, minChunks, kmeans, hasLlm, llm);
    ClusteringPartition(Texts(prev), NClusters(|prev|, minChunks), kmeans);
  }

  /** n is the summary node of cluster j of its level L as the builder
      writes it: id summary_level{L}_cluster{j}, the level's text for that
      id, and one child per cluster member, each an id of level L-1. Above
      level 1 the i-th child is the id of the i-th member; at level 1 it is
      the id of chunk i, the member's position inside the cluster. */
  ghost predicate NodeOfCluster(n: Node, j: nat, sm: map<int, Level>, cl: map<int, seq<seq<nat>>>) {
    n.SummaryNode? && n.level >= 1 && n.level - 1 in sm && n.level in sm && n.level in cl
    && j < |cl[n.level]| && j < |sm[n.level]|
    && n.id == SummaryId(n.level, j) && n.text == sm[n.level][j].1
    && |n.children| == |cl[n.level][j]| <= |sm[n.level - 1]|
    && (forall i :: 0 <= i < |n.children| ==> cl[n.level][j][i] < |sm[n.level - 1]|)
    && (n.level == 1 ==> forall i :: 0 <= i < |n.children| ==> n.children[i] == sm[0][i].0)
    && (n.level > 1 ==> forall i :: 0 <= i < |n.children| ==> n.children[i] == sm[n.level - 1][cl[n.level][j][i]].0)
    && forall c :: c in n.children ==> c in Keys(sm[n.level - 1])
  }

  lemma NodeOfClusterIntro(n: Node, L: nat, j: nat, sm: map<int, Level>, cl: map<int, seq<seq<nat>>>)
    requires L >= 1 && L - 1 in sm && L in sm && L in cl && j < |cl[L]| && j < |sm[L]|
    requires SummaryIds(sm[L], L)
    requires Increasing(cl[L][j]) && forall i :: 0 <= i < |cl[L][j]| ==> cl[L][j][i] < |sm[L - 1]|
    requires L == 1 ==> forall i :: 0 <= i < |sm[0]| ==> sm[0][i].0 == ChunkName(i)
    requires L > 1 ==> SummaryIds(sm[L - 1], L - 1)
    requires n == SummaryNode(sm[L][j].0, sm[L][j].1, L, ChildrenAsWritten(L, cl[L][j]))
    ensures NodeOfCluster(n, j, sm, cl)
  {
    ChildrenAsWrittenListed(L, cl[L][j], sm[L - 1]);
  }

  /** Every node after the chunk nodes is the summary node of a cluster of
      its level, at a level 1..depth. */
  lemma BuiltSummaryNode(nodes: seq<Node>, summaries: map<int, Level>, clusters: map<int, seq<seq<nat>>>, top: nat,
                         chunks: seq<string>, maxDepth: int, minChunks: int,
                         kmeans: (seq<string>, nat) -> seq<nat>, hasLlm: bool, llm: seq<string> -> LlmReply, k: nat)
    requires Built(nodes, summaries, clusters, top, chunks, maxDepth, minChunks, kmeans, hasLlm, llm)
    requires IsKMeans(kmeans)
    requires |chunks| <= k < |nodes|
    ensures nodes[k].SummaryNode? && 1 <= nodes[k].level <= top
    ensures exists j :: NodeOfCluster(nodes[k], j, summaries, clusters)
  {
    var rest := NodesUpTo(summaries, clusters, top);
    NodesUpToAt(summaries, clusters, top, k - |chunks|);
    var n := nodes[k];
    assert n == rest[k - |chunks|];
    var L := n.level;
    var j :| 0 <= j < |clusters[L]|
      && n == SummaryNode(summaries[L][j].0, summaries[L][j].1, L, ChildrenAsWritten(L, clusters[L][j]));
    BuiltLevelKeys(nodes, summaries, clusters, top, chunks, maxDepth, minChunks, kmeans, hasLlm, llm, L);
    BuiltCluster(nodes, summaries, clusters, top, chunks, maxDepth, minChunks, kmeans, hasLlm, llm, L, j);
    if L > 1 {
      BuiltLevelKeys(nodes, summaries, clusters, top, chunks, maxDepth, minChunks, kmeans, hasLlm, llm, L - 1);
    }
    NodeOfClusterIntro(n, L, j, summaries, clusters);
  }

  /** The children the builder writes for an ascending cluster of positions
      of the level below are ids of that level, one per member: the members'
      own ids above level 1, the first |cluster| chunk ids at level 1. */
  lemma ChildrenAsWrittenListed(L: nat, cl: seq<nat>, prev: Level)
    requires L >= 1 && Increasing(cl) && forall j :: 0 <= j < |cl| ==> cl[j] < |prev|
    requires L == 1 ==> forall i :: 0 <= i < |prev| ==> prev[i].0 == ChunkName(i)
    requires L > 1 ==> forall i :: 0 <= i < |prev| ==> prev[i].0 == SummaryId(L - 1, i)
    ensures |ChildrenAsWritten(L, cl)| == |cl| <= |prev|
    ensures L == 1 ==> forall i :: 0 <= i < |cl| ==> ChildrenAsWritten(L, cl)[i] == prev[i].0
    ensures L > 1 ==> forall i :: 0 <= i < |cl| ==> ChildrenAsWritten(L, cl)[i] == prev[cl[i]].0
    ensures forall c :: c in ChildrenAsWritten(L, cl) ==> c in Keys(prev)
  {
    IncreasingBelow(cl, |prev|);
    forall c | c in ChildrenAsWritten(L, cl) ensures c in Keys(prev) {
      var i :| 0 <= i < |cl| && ChildrenAsWritten(L, cl)[i] == c;
      if L == 1 {
        assert Keys(prev)[i] == prev[i].0;
      } else {
        assert Keys(prev)[cl[i]] == prev[cl[i]].0;
      }
    }
  }

  /** The corrected children of a cluster of positions of the level below
      are the ids its members have there. */
  lemma ChildrenListed(L: nat, cl: seq<nat>, prev: Level)
    requires L >= 1 && forall j :: 0 <= j < |cl| ==> cl[j] < |prev|
    requires L == 1 ==> forall i :: 0 <= i < |prev| ==> prev[i].0 == ChunkName(i)
    requires L > 1 ==> forall i :: 0 <= i < |prev| ==> prev[i].0 == SummaryId(L - 1, i)
    ensures |Children(L, cl)| == |cl|
    ensures forall i :: 0 <= i < |cl| ==> Children(L, cl)[i] == prev[cl[i]].0
    ensures forall c :: c in Children(L, cl) ==> c in Keys(prev)
  {
    forall c | c in Children(L, cl) ensures c in Keys(prev) {
      var i :| 0 <= i < |cl| && Children(L, cl)[i] == c;
      assert Keys(prev)[cl[i]] == prev[cl[i]].0;
    }
  }

  /** As written, a level-1 cluster of chunks 1 and 3 gets the children
      chunk_0 and chunk_1, which are not its members; above level 1 the
      written children are the intended ones. */
  lemma ChildrenAsWrittenByPosition(L: nat, cl: seq<nat>)
    requires L > 1
    ensures ChildrenAsWritten(1, [1, 3]) == [ChunkName(0), ChunkName(1)]
    ensures Children(1, [1, 3]) == [ChunkName(1), ChunkName(3)]
    ensures ChildrenAsWritten(1, [1, 3]) != Children(1, [1, 3])
    ensures ChildrenAsWritten(L, cl) == Children(L, cl)
  {
    ChunkNameInjective(0, 1);
    assert ChildrenAsWritten(1, [1, 3])[0] != Children(1, [1, 3])[0];
  }

  /** build_and_index_document with the configured depth 3 and minimum 4
      (the JSON file it then writes is not modelled). */
  method BuildAndIndexDocument(chunks: seq<string>, kmeans: (seq<string>, nat) -> seq<nat>, hasLlm: bool, llm: seq<string> -> LlmReply)
    returns (t: Tree)
    requires IsKMeans(kmeans)
    ensures 0 <= t.depth <= DefaultMaxDepth
    ensures Built(t.nodes, t.summaries, t.clusters, t.depth, chunks, DefaultMaxDepth, DefaultMinChunks, kmeans, hasLlm, llm)
  {
    var r := BuildRaptorTree(chunks, DefaultMaxDepth, DefaultMinChunks, kmeans, hasLlm, llm);
    t := r.value;
  }

  // ---------------------------------------------------------------- readers

  /** get_raptor_summary: level -1 stands for the tree's depth; an absent
      level gives "", a present one its texts joined by a blank line (one
      text as it is, none as ""). */
  function GetRaptorSummary(t: Tree, level: int): (r: string)
    ensures var L := if level == -1 then t.depth else level;
      (L !in t.summaries ==> r == "")
      && (L in t.summaries ==> r == Join("\n\n", Texts(t.summaries[L])))
  {
    var L := if level == -1 then t.depth else level;
    if L !in t.summaries then ""
    else
      var summaries := t.summaries[L];
      if |summaries| == 0 then ""
      else if |summaries| > 1 then Join("\n\n", Texts(summaries))
      else summaries[0].1
  }

  /** One entry of retrieve_from_raptor's result. */
  datatype Retrieved = Retrieved(id: string, text: string, level: int, score: real, kind: string)

  function RetrievedScore(x: Retrieved): real { x.score }

  /** "summary" if level > 0 else "chunk" */
  function KindOf(level: int): string {
    if level > 0 then "summary" else "chunk"
  }

  /** list(range(n)) */
  function Range(n: int): (r: seq<int>)
    ensures |r| == Max(0, n) && forall i :: 0 <= i < |r| ==> r[i] == i
    decreases n
  {
    if n <= 0 then [] else Range(n - 1) + [n - 1]
  }

  /** [target_level] if one is given, else every level 0..depth. */
  function LevelsToSearch(t: Tree, target: Option<int>): seq<int> {
    if target.Some? then [target.value] else Range(t.depth + 1)
  }

  /** The candidates one level contributes, in the level's order. */
  function LevelHits(t: Tree, level: int, sim: string -> real): seq<Retrieved> {
    if level !in t.summaries then []
    else
      var l := t.summaries[level];
      seq(|l|, i requires 0 <= i < |l| => Retrieved(l[i].0, l[i].1, level, sim(l[i].1), KindOf(level)))
  }

  /** all_results before sorting. */
  function AllHits(t: Tree, levels: seq<int>, sim: string -> real): seq<Retrieved>
    decreases |levels|
  {
    if |levels| == 0 then []
    else AllHits(t, levels[..|levels| - 1], sim) + LevelHits(t, levels[|levels| - 1], sim)
  }

  /** A candidate is exactly an entry of a searched level that is present in
      the tree, scored by its text's similarity and typed by its level. */
  lemma {:induction false} AllHitsMember(t: Tree, levels: seq<int>, sim: string -> real, x: Retrieved)
    ensures x in AllHits(t, levels, sim) <==>
              x.level in levels && x.level in t.summaries && (x.id, x.text) in t.summaries[x.level]
              && x.score == sim(x.text) && x.kind == KindOf(x.level)
    decreases |levels|
  {
    if |levels| > 0 {
      var init, last := levels[..|levels| - 1], levels[|levels| - 1];
      AllHitsMember(t, init, sim, x);
      assert levels == init + [last];
      var hits := LevelHits(t, last, sim);
      if x.level == last && x.level in t.summaries && (x.id, x.text) in t.summaries[x.level]
         && x.score == sim(x.text) && x.kind == KindOf(x.level) {
        var l := t.summaries[last];
        var i :| 0 <= i < |l| && l[i] == (x.id, x.text);
        assert hits[i] == x;
      }
      if x in hits {
        var i :| 0 <= i < |hits| && hits[i] == x;
        assert t.summaries[last][i] == (x.id, x.text);
      }
    }
  }

  /** The candidates of one level (the inner loop of retrieve_from_raptor). */
  method CollectLevel(t: Tree, level: int, sim: string -> real) returns (hits: seq<Retrieved>)
    ensures hits == LevelHits(t, level, sim)
  {
    hits := [];
    if level !in t.summaries {
      return;
    }
    var l := t.summaries[level];
    var i := 0;
    while i < |l|
      invariant 0 <= i <= |l|
      invariant |hits| == i
      invariant forall j :: 0 <= j < i ==> hits[j] == Retrieved(l[j].0, l[j].1, level, sim(l[j].1), KindOf(level))
    {
      hits := hits + [Retrieved(l[i].0, l[i].1, level, sim(l[i].1), if level > 0 then "summary" else "chunk")];
      i := i + 1;
    }
  }

  /** retrieve_from_raptor: the candidates of the searched levels, sorted by
      score (ties keep their order) and cut to top_k. */
  method RetrieveFromRaptor(t: Tree, topK: int, target: Option<int>, sim: string -> real) returns (r: seq<Retrieved>)
    ensures r == SliceTo(SortDesc(AllHits(t, LevelsToSearch(t, target), sim), RetrievedScore), topK)
  {
    var levels := if target.Some? then [target.value] else Range(t.depth + 1);
    var all: seq<Retrieved> := [];
    var k := 0;
    while k < |levels|
      invariant 0 <= k <= |levels|
      invariant all == AllHits(t, levels[..k], sim)
    {
      assert levels[..k + 1][..k] == levels[..k];
      var hits := CollectLevel(t, levels[k], sim);
      all := all + hits;
      k := k + 1;
    }
    assert levels[..k] == levels;
    var sorted := SortDesc(all, RetrievedScore);
    r := SliceTo(sorted, topK);
  }

  /** retrieve_from_raptor's cut: at most top_k results (a negative top_k
      drops that many from the end, as slicing does) in non-increasing score
      order, and no candidate left out scores above a returned one. */
  lemma RetrieveRanked(all: seq<Retrieved>, topK: int)
    ensures var r := SliceTo(SortDesc(all, RetrievedScore), topK);
      (topK >= 0 ==> |r| == Min(topK, |all|))
      && (topK < 0 ==> |r| == Max(0, |all| + topK))
      && NonIncreasing(r, RetrievedScore)
      && (forall j, y :: 0 <= j < |r| && y in multiset(all) - multiset(r) ==> y.score <= r[j].score)
  {
    var sorted := SortDesc(all, RetrievedScore);
    var r := SliceTo(sorted, topK);
    TakeSorted(sorted, |r|, RetrievedScore);
    assert r == Take(sorted, |r|);
    PrefixDominates(sorted, |r|);
  }

  /** In a list sorted by non-increasing score, nothing after the first n
      scores above any of them. */
  lemma PrefixDominates(sorted: seq<Retrieved>, n: nat)
    requires NonIncreasing(sorted, RetrievedScore) && n <= |sorted|
    ensures forall j, y :: 0 <= j < n && y in multiset(sorted) - multiset(sorted[..n]) ==> y.score <= sorted[j].score
  {
    var rest := sorted[n..];
    assert sorted == sorted[..n] + rest;
    assert multiset(sorted) - multiset(sorted[..n]) == multiset(rest);
    forall j, y: Retrieved | 0 <= j < n && y in multiset(rest) ensures y.score <= sorted[j].score {
      var i :| 0 <= i < |rest| && rest[i] == y;
      assert sorted[n + i] == y;
    }
  }

  /** Every result of retrieve_from_raptor is an entry of a searched level
      that is present in the tree, with its similarity as score, of type
      "chunk" exactly when its level is not positive (level 0 in a tree
      without negative levels). */
  lemma RetrieveEntries(t: Tree, topK: int, target: Option<int>, sim: string -> real)
    ensures var r := SliceTo(SortDesc(AllHits(t, LevelsToSearch(t, target), sim), RetrievedScore), topK);
      forall j :: 0 <= j < |r| ==>
        r[j].level in LevelsToSearch(t, target) && r[j].level in t.summaries
        && (r[j].id, r[j].text) in t.summaries[r[j].level] && r[j].score == sim(r[j].text)
        && (r[j].kind == "chunk" <==> r[j].level <= 0)
        && ((forall L :: L in t.summaries ==> L >= 0) ==> (r[j].kind == "chunk" <==> r[j].level == 0))
  {
    var levels := LevelsToSearch(t, target);
    var all := AllHits(t, levels, sim);
    var sorted := SortDesc(all, RetrievedScore);
    var r := SliceTo(sorted, topK);
    forall j | 0 <= j < |r|
      ensures r[j].level in levels && r[j].level in t.summaries
              && (r[j].id, r[j].text) in t.summaries[r[j].level] && r[j].score == sim(r[j].text)
              && (r[j].kind == "chunk" <==> r[j].level <= 0)
    {
      assert r[j] == sorted[j];
      SortDescMember(all, RetrievedScore, j);
      AllHitsMember(t, levels, sim, r[j]);
    }
  }
}
