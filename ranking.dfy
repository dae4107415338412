/** Ranked lists and the list arithmetic shared by the retrieval code:
    Python's stable `sorted(..., reverse=True)` by a score, `max`, division by
    the maximum, and the `defaultdict(float)` accumulation that rank fusion
    uses (keys kept in first-insertion order, as a Python dict does). */
module Ranking {
  import opened Common

  /** One (id, score) pair of a RankedList. */
  datatype Scored = Scored(id: string, score: real)

  function ScoreOf(p: Scored): real { p.score }

  ghost predicate NonIncreasing<T>(s: seq<T>, key: T -> real) {
    forall i, j :: 0 <= i < j < |s| ==> key(s[i]) >= key(s[j])
  }

  predicate Distinct<T(==)>(s: seq<T>) {
    forall i, j :: 0 <= i < j < |s| ==> s[i] != s[j]
  }

  function Ids(s: seq<Scored>): (r: seq<string>)
    ensures |r| == |s|
    ensures forall i :: 0 <= i < |s| ==> r[i] == s[i].id
    decreases |s|
  {
    if |s| == 0 then [] else [s[0].id] + Ids(s[1..])
  }

  // ---------------------------------------------------------------- stable sort

  /** Places x after every element whose key is at least key(x). */
  function Insert<T(==)>(x: T, s: seq<T>, key: T -> real): (r: seq<T>)
    ensures |r| == |s| + 1
    ensures multiset(r) == multiset(s) + multiset{x}
    decreases |s|
  {
    if |s| == 0 then [x]
    else if key(s[0]) >= key(x) then
      assert s == [s[0]] + s[1..];
      [s[0]] + Insert(x, s[1..], key)
    else [x] + s
  }

  lemma {:induction false} InsertBelow<T>(x: T, s: seq<T>, key: T -> real, b: real)
    requires key(x) <= b
    requires forall i :: 0 <= i < |s| ==> key(s[i]) <= b
    ensures forall i :: 0 <= i < |s| + 1 ==> key(Insert(x, s, key)[i]) <= b
    decreases |s|
  {
    if |s| > 0 && key(s[0]) >= key(x) {
      InsertBelow(x, s[1..], key, b);
    }
  }

  lemma {:induction false} InsertSorted<T>(x: T, s: seq<T>, key: T -> real)
    requires NonIncreasing(s, key)
    ensures NonIncreasing(Insert(x, s, key), key)
    decreases |s|
  {
    if |s| > 0 && key(s[0]) >= key(x) {
      var rest := Insert(x, s[1..], key);
      InsertSorted(x, s[1..], key);
      InsertBelow(x, s[1..], key, key(s[0]));
      var r := [s[0]] + rest;
      forall i, j | 0 <= i < j < |r| ensures key(r[i]) >= key(r[j]) {
        if i > 0 {
          assert r[i] == rest[i - 1] && r[j] == rest[j - 1];
        } else {
          assert r[j] == rest[j - 1];
        }
      }
    }
  }

  /** Python's stable `sorted(s, key=key, reverse=True)`: non-increasing by key,
      ties in input order. */
  function SortDesc<T(==)>(s: seq<T>, key: T -> real): (r: seq<T>)
    ensures multiset(r) == multiset(s) && |r| == |s|
    ensures NonIncreasing(r, key)
    decreases |s|
  {
    if |s| == 0 then []
    else
      var init := SortDesc(s[..|s| - 1], key);
      InsertSorted(s[|s| - 1], init, key);
      assert s == s[..|s| - 1] + [s[|s| - 1]];
      Insert(s[|s| - 1], init, key)
  }

  lemma {:induction false} InsertAtEnd<T>(x: T, s: seq<T>, key: T -> real)
    requires forall i :: 0 <= i < |s| ==> key(s[i]) >= key(x)
    ensures Insert(x, s, key) == s + [x]
    decreases |s|
  {
    if |s| > 0 {
      InsertAtEnd(x, s[1..], key);
      assert s == [s[0]] + s[1..];
    }
  }

  /** Stability on an already ordered input: sorting changes nothing. */
  lemma {:induction false} SortDescOfSorted<T>(s: seq<T>, key: T -> real)
    requires NonIncreasing(s, key)
    ensures SortDesc(s, key) == s
    decreases |s|
  {
    if |s| > 0 {
      var init := s[..|s| - 1];
      var x := s[|s| - 1];
      forall i, j | 0 <= i < j < |init| ensures key(init[i]) >= key(init[j]) {
        assert init[i] == s[i] && init[j] == s[j];
      }
      forall i | 0 <= i < |init| ensures key(init[i]) >= key(x) {
        assert init[i] == s[i];
      }
      SortDescOfSorted(init, key);
      InsertAtEnd(x, init, key);
      FrontLast(s);
    }
  }

  /** Every element of a sorted list is one of the input's. */
  lemma SortDescMember<T>(s: seq<T>, key: T -> real, i: nat)
    requires i < |s|
    ensures SortDesc(s, key)[i] in s
  {
    var r := SortDesc(s, key);
    assert r[i] in multiset(r);
  }

  /** A prefix of a sorted list is sorted. */
  lemma TakeSorted<T>(s: seq<T>, n: nat, key: T -> real)
    requires NonIncreasing(s, key)
    ensures NonIncreasing(Take(s, n), key)
  {
    var r := Take(s, n);
    forall i, j | 0 <= i < j < |r| ensures key(r[i]) >= key(r[j]) {
      assert r[i] == s[i] && r[j] == s[j];
    }
  }

  // ---------------------------------------------------------------- max / normalise

  /** Python's max(score for ...) over a non-empty list. */
  function MaxScore(s: seq<Scored>): (m: real)
    requires |s| > 0
    ensures forall i :: 0 <= i < |s| ==> s[i].score <= m
    ensures exists i :: 0 <= i < |s| && s[i].score == m
    decreases |s|
  {
    if |s| == 1 then s[0].score
    else
      var rest := MaxScore(s[1..]);
      assert forall i :: 1 <= i < |s| ==> s[i] == s[1..][i - 1];
      if s[0].score >= rest then s[0].score else rest
  }

  lemma SortedMax(s: seq<Scored>)
    requires |s| > 0 && NonIncreasing(s, ScoreOf)
    ensures MaxScore(s) == s[0].score
  {
    assert forall i :: 0 <= i < |s| ==> ScoreOf(s[0]) >= ScoreOf(s[i]);
  }

  /** [(id, score / m) for id, score in s] */
  function Normalize(s: seq<Scored>, m: real): (r: seq<Scored>)
    requires m != 0.0
    ensures |r| == |s| && Ids(r) == Ids(s)
    ensures forall i :: 0 <= i < |s| ==> r[i].score == s[i].score / m
  {
    seq(|s|, i requires 0 <= i < |s| => Scored(s[i].id, s[i].score / m))
  }

  lemma DivMonotone(a: real, b: real, m: real)
    requires m > 0.0 && a >= b
    ensures a / m >= b / m
  {
    assert a / m - b / m == (a - b) / m;
  }

  lemma DivAtMostOne(a: real, m: real)
    requires m > 0.0 && a <= m
    ensures a / m <= 1.0
  {
    DivMonotone(m, a, m);
  }

  lemma DivSelf(m: real)
    requires m != 0.0
    ensures m / m == 1.0
  {
  }

  lemma DivPositive(a: real, m: real)
    requires m > 0.0 && a > 0.0
    ensures a / m > 0.0
  {
  }

  /** Dividing a sorted list with positive scores by its maximum: the order is
      kept, every score lies in (0, 1] and the first one is exactly 1. */
  lemma {:induction false} NormalizeByMax(s: seq<Scored>)
    requires |s| > 0 && NonIncreasing(s, ScoreOf)
    requires forall i :: 0 <= i < |s| ==> s[i].score > 0.0
    ensures MaxScore(s) > 0.0
    ensures NonIncreasing(Normalize(s, MaxScore(s)), ScoreOf)
    ensures forall i :: 0 <= i < |s| ==> 0.0 < Normalize(s, MaxScore(s))[i].score <= 1.0
    ensures Normalize(s, MaxScore(s))[0].score == 1.0
  {
    SortedMax(s);
    var m := MaxScore(s);
    var r := Normalize(s, m);
    forall i, j | 0 <= i < j < |r| ensures ScoreOf(r[i]) >= ScoreOf(r[j]) {
      assert ScoreOf(s[i]) >= ScoreOf(s[j]);
      DivMonotone(s[i].score, s[j].score, m);
    }
    forall i | 0 <= i < |s| ensures 0.0 < r[i].score <= 1.0 {
      DivAtMostOne(s[i].score, m);
      DivPositive(s[i].score, m);
    }
  }

  /** Dividing positive scores by their maximum puts each in (0, 1] and the
      maximal one at exactly 1. */
  lemma NormalizeBounds(s: seq<Scored>)
    requires |s| > 0 && forall j :: 0 <= j < |s| ==> s[j].score > 0.0
    ensures MaxScore(s) > 0.0
    ensures forall j :: 0 <= j < |s| ==> 0.0 < Normalize(s, MaxScore(s))[j].score <= 1.0
    ensures exists j :: 0 <= j < |s| && Normalize(s, MaxScore(s))[j].score == 1.0
  {
    var m := MaxScore(s);
    assert s[0].score <= m;
    var r := Normalize(s, m);
    forall j | 0 <= j < |s| ensures 0.0 < r[j].score <= 1.0 {
      DivAtMostOne(s[j].score, m);
      DivPositive(s[j].score, m);
    }
    var top :| 0 <= top < |s| && s[top].score == m;
    DivSelf(m);
    assert r[top].score == 1.0;
  }

  /** Sorting scores that lie in (0, 1] and reach 1 puts a 1 first. */
  lemma SortedTop(s: seq<Scored>)
    requires forall j :: 0 <= j < |s| ==> 0.0 < s[j].score <= 1.0
    requires exists j :: 0 <= j < |s| && s[j].score == 1.0
    ensures forall j :: 0 <= j < |s| ==>
              0.0 < SortDesc(s, ScoreOf)[j].score <= 1.0 && SortDesc(s, ScoreOf)[j].id in Ids(s)
    ensures SortDesc(s, ScoreOf)[0].score == 1.0
  {
    var sorted := SortDesc(s, ScoreOf);
    forall j | 0 <= j < |s| ensures 0.0 < sorted[j].score <= 1.0 && sorted[j].id in Ids(s) {
      SortDescMember(s, ScoreOf, j);
      var p :| 0 <= p < |s| && s[p] == sorted[j];
      assert Ids(s)[p] == sorted[j].id;
    }
    var top :| 0 <= top < |s| && s[top].score == 1.0;
    assert s[top] in multiset(sorted);
    var t :| 0 <= t < |sorted| && sorted[t] == s[top];
    assert ScoreOf(sorted[0]) >= ScoreOf(sorted[t]);
  }

  /** The same with scores of any sign, as long as the maximum is positive. */
  lemma {:induction false} NormalizeByPositiveMax(s: seq<Scored>)
    requires |s| > 0 && NonIncreasing(s, ScoreOf) && MaxScore(s) > 0.0
    ensures NonIncreasing(Normalize(s, MaxScore(s)), ScoreOf)
    ensures forall i :: 0 <= i < |s| ==> Normalize(s, MaxScore(s))[i].score <= 1.0
    ensures Normalize(s, MaxScore(s))[0].score == 1.0
  {
    SortedMax(s);
    var m := MaxScore(s);
    var r := Normalize(s, m);
    forall i, j | 0 <= i < j < |r| ensures ScoreOf(r[i]) >= ScoreOf(r[j]) {
      assert ScoreOf(s[i]) >= ScoreOf(s[j]);
      DivMonotone(s[i].score, s[j].score, m);
    }
    forall i | 0 <= i < |s| ensures r[i].score <= 1.0 {
      DivAtMostOne(s[i].score, m);
    }
  }

  // ---------------------------------------------------------------- defaultdict(float)

  /** scores[id] of a defaultdict(float): 0 when the key is absent. */
  function Lookup(acc: seq<Scored>, id: string): real
    decreases |acc|
  {
    if |acc| == 0 then 0.0
    else if acc[0].id == id then acc[0].score
    else Lookup(acc[1..], id)
  }

  /** scores[id] += delta */
  function Bump(acc: seq<Scored>, id: string, delta: real): seq<Scored>
    decreases |acc|
  {
    if |acc| == 0 then [Scored(id, delta)]
    else if acc[0].id == id then [Scored(id, acc[0].score + delta)] + acc[1..]
    else [acc[0]] + Bump(acc[1..], id, delta)
  }

  lemma {:induction false} BumpIds(acc: seq<Scored>, id: string, delta: real)
    ensures Ids(Bump(acc, id, delta)) == if id in Ids(acc) then Ids(acc) else Ids(acc) + [id]
    decreases |acc|
  {
    if |acc| > 0 && acc[0].id != id {
      BumpIds(acc[1..], id, delta);
      assert Ids(acc) == [acc[0].id] + Ids(acc[1..]);
      assert id in Ids(acc) <==> id in Ids(acc[1..]);
      assert Ids(Bump(acc, id, delta)) == [acc[0].id] + Ids(Bump(acc[1..], id, delta));
    } else if |acc| > 0 {
      assert Ids(acc) == [acc[0].id] + Ids(acc[1..]);
      assert Ids(Bump(acc, id, delta)) == [id] + Ids(acc[1..]);
    }
  }

  lemma {:induction false} BumpLookup(acc: seq<Scored>, id: string, delta: real, x: string)
    ensures Lookup(Bump(acc, id, delta), x) == Lookup(acc, x) + (if x == id then delta else 0.0)
    decreases |acc|
  {
    if |acc| > 0 && acc[0].id != id {
      BumpLookup(acc[1..], id, delta, x);
    }
  }

  lemma {:induction false} BumpScores(acc: seq<Scored>, id: string, delta: real, b: real)
    requires delta > b && forall i :: 0 <= i < |acc| ==> acc[i].score > b
    requires b >= 0.0
    ensures forall i :: 0 <= i < |Bump(acc, id, delta)| ==> Bump(acc, id, delta)[i].score > b
    decreases |acc|
  {
    if |acc| > 0 && acc[0].id != id {
      BumpScores(acc[1..], id, delta, b);
    }
  }

  /** The loop `for rank, (doc_id, score) in enumerate(list[:n]): scores[doc_id] += delta(rank, ...)`. */
  function Accumulate(acc: seq<Scored>, list: seq<Scored>, delta: (nat, Scored) -> real, n: nat): seq<Scored>
    requires n <= |list|
    decreases n
  {
    if n == 0 then acc
    else Bump(Accumulate(acc, list, delta, n - 1), list[n - 1].id, delta(n - 1, list[n - 1]))
  }

  /** The sum of delta over the occurrences of x among the first n entries. */
  function Contribution(list: seq<Scored>, delta: (nat, Scored) -> real, x: string, n: nat): real
    requires n <= |list|
    decreases n
  {
    if n == 0 then 0.0
    else Contribution(list, delta, x, n - 1) + (if list[n - 1].id == x then delta(n - 1, list[n - 1]) else 0.0)
  }

  lemma {:induction false} AccumulateLookup(acc: seq<Scored>, list: seq<Scored>, delta: (nat, Scored) -> real, n: nat, x: string)
    requires n <= |list|
    ensures Lookup(Accumulate(acc, list, delta, n), x) == Lookup(acc, x) + Contribution(list, delta, x, n)
    decreases n
  {
    if n > 0 {
      AccumulateLookup(acc, list, delta, n - 1, x);
      BumpLookup(Accumulate(acc, list, delta, n - 1), list[n - 1].id, delta(n - 1, list[n - 1]), x);
    }
  }

  /** `for x in xs: if x not in keys: keys.append(x)` -- the order in which a
      dict (or a list kept free of duplicates) first sees its keys. */
  function AppendAbsent(keys: seq<string>, xs: seq<string>): (r: seq<string>)
    ensures keys <= r
    ensures forall x :: x in r <==> x in keys || x in xs
    ensures Distinct(keys) ==> Distinct(r)
    decreases |xs|
  {
    if |xs| == 0 then keys
    else
      var prev := AppendAbsent(keys, xs[..|xs| - 1]);
      var x := xs[|xs| - 1];
      assert xs == xs[..|xs| - 1] + [x];
      if x in prev then prev else prev + [x]
  }

  /** The keys after the loop: the old keys in their order, then each new id of
      the list at its first occurrence. */
  lemma {:induction false} AccumulateIds(acc: seq<Scored>, list: seq<Scored>, delta: (nat, Scored) -> real, n: nat)
    requires n <= |list|
    ensures Ids(Accumulate(acc, list, delta, n)) == AppendAbsent(Ids(acc), Ids(list)[..n])
    decreases n
  {
    if n > 0 {
      var prev := Accumulate(acc, list, delta, n - 1);
      AccumulateIds(acc, list, delta, n - 1);
      BumpIds(prev, list[n - 1].id, delta(n - 1, list[n - 1]));
      assert Ids(list)[..n][..n - 1] == Ids(list)[..n - 1];
    }
  }

  lemma {:induction false} AccumulatePositive(acc: seq<Scored>, list: seq<Scored>, delta: (nat, Scored) -> real, n: nat)
    requires n <= |list|
    requires forall i :: 0 <= i < |acc| ==> acc[i].score > 0.0
    requires forall r: nat, p: Scored :: delta(r, p) > 0.0
    ensures forall i :: 0 <= i < |Accumulate(acc, list, delta, n)| ==> Accumulate(acc, list, delta, n)[i].score > 0.0
    decreases n
  {
    if n > 0 {
      AccumulatePositive(acc, list, delta, n - 1);
      BumpScores(Accumulate(acc, list, delta, n - 1), list[n - 1].id, delta(n - 1, list[n - 1]), 0.0);
    }
  }

  /** Over a duplicate-free list and an empty dictionary, each id gets exactly
      its own contribution, in list order. */
  lemma {:induction false} AccumulateFresh(list: seq<Scored>, delta: (nat, Scored) -> real, n: nat)
    requires n <= |list| && Distinct(Ids(list))
    ensures |Accumulate([], list, delta, n)| == n
    ensures forall r :: 0 <= r < n ==> Accumulate([], list, delta, n)[r] == Scored(list[r].id, delta(r, list[r]))
    decreases n
  {
    if n > 0 {
      AccumulateFresh(list, delta, n - 1);
      var prev := Accumulate([], list, delta, n - 1);
      var id := list[n - 1].id;
      var d := delta(n - 1, list[n - 1]);
      AccumulateIds([], list, delta, n - 1);
      FreshId([], list, n - 1);
      BumpAbsent(prev, id, d);
      var cur := Accumulate([], list, delta, n);
      assert cur == prev + [Scored(id, d)];
      forall r | 0 <= r < n ensures cur[r] == Scored(list[r].id, delta(r, list[r])) {
        if r < n - 1 {
          assert cur[r] == prev[r];
        }
      }
    }
  }

  /** The k-th id of a duplicate-free list is seen neither among the old
      keys nor among the ids before it. */
  lemma FreshId(acc: seq<Scored>, list: seq<Scored>, k: nat)
    requires k < |list| && Distinct(Ids(list))
    requires forall i :: 0 <= i < |acc| ==> acc[i].id !in Ids(list)
    ensures list[k].id !in AppendAbsent(Ids(acc), Ids(list)[..k])
  {
    var xs := Ids(list)[..k];
    var id := list[k].id;
    assert Ids(list)[k] == id;
    forall j | 0 <= j < |xs| ensures xs[j] != id {
      assert xs[j] == Ids(list)[j];
    }
    forall j | 0 <= j < |acc| ensures Ids(acc)[j] != id {
      assert acc[j].id !in Ids(list);
    }
  }

  lemma {:induction false} BumpAbsent(acc: seq<Scored>, id: string, delta: real)
    requires id !in Ids(acc)
    ensures Bump(acc, id, delta) == acc + [Scored(id, delta)]
    decreases |acc|
  {
    if |acc| > 0 {
      assert Ids(acc) == [acc[0].id] + Ids(acc[1..]);
      BumpAbsent(acc[1..], id, delta);
      assert acc == [acc[0]] + acc[1..];
    }
  }

  /** With distinct keys, each entry holds its key's accumulated score. */
  lemma {:induction false} LookupAt(acc: seq<Scored>, i: nat)
    requires i < |acc| && Distinct(Ids(acc))
    ensures Lookup(acc, acc[i].id) == acc[i].score
    decreases i
  {
    if i > 0 {
      assert Ids(acc[1..]) == Ids(acc)[1..];
      assert acc[0].id != acc[i].id;
      LookupAt(acc[1..], i - 1);
    }
  }
}
