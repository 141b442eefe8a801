/** Reciprocal rank fusion: the two-list merge of the hybrid route and the fusion of sub-query results. */
module Fusion {
  import opened Domain
  import opened Ranking

  type Hits = seq<Candidate>

  const RANK_OFFSET := 60.0

  // ---------------------------------------------------------------- ids and ranks

  /** The ids among the first n items. */
  function IdsUpTo(items: Hits, n: nat): set<string>
    requires n <= |items|
  {
    if n == 0 then {} else IdsUpTo(items, n - 1) + {items[n - 1].chunkId}
  }

  function IdsOf(items: Hits): set<string> {
    IdsUpTo(items, |items|)
  }

  /** The 1-based rank of the first of the first n items with this id, or 0 when there is none. */
  function RankUpTo(items: Hits, n: nat, id: string): (r: nat)
    requires n <= |items|
    ensures r <= n
    ensures r == 0 <==> id !in IdsUpTo(items, n)
    ensures r > 0 ==> items[r - 1].chunkId == id
  {
    if n == 0 then 0
    else if id in IdsUpTo(items, n - 1) then RankUpTo(items, n - 1, id)
    else if items[n - 1].chunkId == id then n
    else 0
  }

  lemma {:induction false} RankIsFirst(items: Hits, n: nat, id: string)
    requires n <= |items|
    ensures forall j :: 0 <= j < n && items[j].chunkId == id ==> 0 < RankUpTo(items, n, id) <= j + 1
  {
    if n > 0 { RankIsFirst(items, n - 1, id); }
  }

  lemma IdOfMember(items: Hits, c: Candidate)
    requires c in items
    ensures c.chunkId in IdsOf(items)
  {
    var j :| 0 <= j < |items| && items[j] == c;
    RankIsFirst(items, |items|, c.chunkId);
  }

  function FirstRank(items: Hits, id: string): nat {
    RankUpTo(items, |items|, id)
  }

  ghost predicate RanksUpTo(items: Hits, n: nat, ranks: map<string, nat>)
    requires n <= |items|
  {
    ranks.Keys == IdsUpTo(items, n) && forall id :: id in ranks ==> ranks[id] == RankUpTo(items, n, id)
  }

  ghost predicate IsRankMap(items: Hits, ranks: map<string, nat>) {
    RanksUpTo(items, |items|, ranks)
  }

  lemma RanksOneMore(items: Hits, n: nat, ranks: map<string, nat>)
    requires n < |items| && RanksUpTo(items, n, ranks)
    ensures items[n].chunkId in ranks ==> RanksUpTo(items, n + 1, ranks)
    ensures items[n].chunkId !in ranks ==> RanksUpTo(items, n + 1, ranks[items[n].chunkId := n + 1])
  {
  }

  /** Rank bookkeeping: each id is mapped to the rank of its first occurrence. */
  method RankMap(items: Hits) returns (ranks: map<string, nat>)
    ensures IsRankMap(items, ranks)
  {
    ranks := map[];
    for i := 0 to |items|
      invariant RanksUpTo(items, i, ranks)
    {
      RanksOneMore(items, i, ranks);
      if items[i].chunkId !in ranks {
        ranks := ranks[items[i].chunkId := i + 1];
      }
    }
  }

  // ---------------------------------------------------------------- fused scores

  function Reciprocal(rank: nat): real {
    1.0 / (RANK_OFFSET + rank as real)
  }

  /** What one list contributes to the fused score of an id. */
  function Share(items: Hits, id: string): real {
    var r := FirstRank(items, id);
    if r == 0 then 0.0 else Reciprocal(r)
  }

  lemma ReciprocalBounds(r: nat)
    requires r >= 1
    ensures 0.0 < Reciprocal(r) <= 1.0 / 61.0
  {
  }

  function AllIdsUpTo(lists: seq<Hits>, n: nat): set<string>
    requires n <= |lists|
  {
    if n == 0 then {} else AllIdsUpTo(lists, n - 1) + IdsOf(lists[n - 1])
  }

  function AllIds(lists: seq<Hits>): set<string> {
    AllIdsUpTo(lists, |lists|)
  }

  function ScoreUpTo(lists: seq<Hits>, n: nat, id: string): real
    requires n <= |lists|
  {
    if n == 0 then 0.0 else ScoreUpTo(lists, n - 1, id) + Share(lists[n - 1], id)
  }

  /** The sum over all lists of 1/(60 + first rank). */
  function FusedScore(lists: seq<Hits>, id: string): real {
    ScoreUpTo(lists, |lists|, id)
  }

  lemma {:induction false} ScoreBounds(lists: seq<Hits>, n: nat, id: string)
    requires n <= |lists|
    ensures ScoreUpTo(lists, n, id) > 0.0 <==> id in AllIdsUpTo(lists, n)
    ensures 0.0 <= ScoreUpTo(lists, n, id) <= n as real / 61.0
  {
    if n > 0 {
      ScoreBounds(lists, n - 1, id);
      if id in IdsOf(lists[n - 1]) { ReciprocalBounds(FirstRank(lists[n - 1], id)); }
    }
  }

  /** What a reader of a fused list sees: distinct ids, true fused scores, best first, nothing better left out. */
  ghost predicate FusionOf(lists: seq<Hits>, topK: int, out: Hits) {
    && (forall i, j :: 0 <= i < j < |out| ==> out[i].chunkId != out[j].chunkId)
    && (forall c :: c in out ==> c.chunkId in AllIds(lists) && c.score == FusedScore(lists, c.chunkId))
    && Descending(out, ScoreOf)
    && |out| == Limit(topK, |AllIds(lists)|)
    && (forall c, id :: c in out && id in AllIds(lists) && id !in IdsOf(out) ==> c.score >= FusedScore(lists, id))
  }

  // ---------------------------------------------------------------- from rows to fusions

  /** One row per id. */
  function RowsFor(row: string -> Candidate, ids: set<string>): set<Candidate> {
    set id | id in ids :: row(id)
  }

  ghost predicate ScoresIds(lists: seq<Hits>, row: string -> Candidate, ids: set<string>) {
    forall id :: id in ids ==> row(id).chunkId == id && row(id).score == FusedScore(lists, id)
  }

  lemma RowsForOneMore(row: string -> Candidate, ids: set<string>, id: string)
    requires id !in ids && row(id).chunkId == id
    requires forall k :: k in ids ==> row(k).chunkId == k
    ensures |RowsFor(row, ids + {id})| == |RowsFor(row, ids)| + 1
    ensures multiset(RowsFor(row, ids + {id})) == multiset(RowsFor(row, ids)) + multiset{row(id)}
  {
    assert row(id) !in RowsFor(row, ids);
    assert RowsFor(row, ids + {id}) == RowsFor(row, ids) + {row(id)};
  }

  /** The rows emitted once only the ids in `remaining` are left to visit. */
  function RowsVisited(row: string -> Candidate, all: set<string>, remaining: set<string>): (rows: set<Candidate>)
    ensures remaining == {} ==> rows == RowsFor(row, all)
    ensures remaining == all ==> rows == {}
  {
    assert all - {} == all;
    RowsFor(row, all - remaining)
  }

  lemma RowsForNext(row: string -> Candidate, all: set<string>, remaining: set<string>, id: string)
    requires id in remaining && remaining <= all && forall k :: k in all ==> row(k).chunkId == k
    ensures multiset(RowsVisited(row, all, remaining - {id})) == multiset(RowsVisited(row, all, remaining)) + multiset{row(id)}
  {
    RowsForOneMore(row, all - remaining, id);
    assert all - (remaining - {id}) == (all - remaining) + {id};
  }

  lemma {:induction false} RowCount(row: string -> Candidate, ids: set<string>)
    requires forall k :: k in ids ==> row(k).chunkId == k
    ensures |RowsFor(row, ids)| == |ids|
  {
    if ids != {} {
      var id :| id in ids;
      RowCount(row, ids - {id});
      RowsForOneMore(row, ids - {id}, id);
      assert ids - {id} + {id} == ids;
    }
  }

  lemma TopRowsAreFusion(lists: seq<Hits>, row: string -> Candidate, topK: int, out: Hits)
    requires ScoresIds(lists, row, AllIds(lists))
    requires IsTop(multiset(RowsFor(row, AllIds(lists))), ScoreOf, topK, out)
    ensures FusionOf(lists, topK, out)
  {
    var rows := RowsFor(row, AllIds(lists));
    RowCount(row, AllIds(lists));
    DrawnFromSet(rows, out);
    forall c, id | c in out && id in AllIds(lists) && id !in IdsOf(out)
      ensures c.score >= FusedScore(lists, id)
    {
      assert row(id) !in out by { if row(id) in out { IdOfMember(out, row(id)); } }
      assert row(id) in rows;
      assert row(id) in multiset(rows) - multiset(out);
      assert ScoreOf(c) >= ScoreOf(row(id));
    }
  }

  // ---------------------------------------------------------------- fusion of sub-query results

  /** The first of the first n items with this id. */
  function FirstWith(items: Hits, n: nat, id: string): (c: Candidate)
    requires n <= |items| && id in IdsUpTo(items, n)
    ensures c.chunkId == id
  {
    if id in IdsUpTo(items, n - 1) then FirstWith(items, n - 1, id) else items[n - 1]
  }

  /** The first candidate with this id, searching list by list. */
  function FirstUpTo(lists: seq<Hits>, n: nat, id: string): (c: Candidate)
    requires n <= |lists| && id in AllIdsUpTo(lists, n)
    ensures c.chunkId == id
  {
    if id in AllIdsUpTo(lists, n - 1) then FirstUpTo(lists, n - 1, id)
    else FirstWith(lists[n - 1], |lists[n - 1]|, id)
  }

  function FirstCandidate(lists: seq<Hits>, id: string): (c: Candidate)
    requires id in AllIds(lists)
    ensures c.chunkId == id
  {
    FirstUpTo(lists, |lists|, id)
  }

  /** The fused row of an id; ids that no list holds get a placeholder that is never used. */
  function FusedRow(lists: seq<Hits>): string -> Candidate {
    id => if id in AllIds(lists)
          then FirstCandidate(lists, id).(score := FusedScore(lists, id), layer := "rrf_multi")
          else Candidate(id, "", "", 0.0, "", "", "", "")
  }

  function FusedRows(lists: seq<Hits>): set<Candidate> {
    RowsFor(FusedRow(lists), AllIds(lists))
  }

  /** Record the candidates of list n, keeping those already there. */
  method AddFirsts(lists: seq<Hits>, n: nat, start: map<string, Candidate>) returns (index: map<string, Candidate>)
    requires n < |lists|
    requires start.Keys == AllIdsUpTo(lists, n)
    requires forall id :: id in start ==> start[id] == FirstUpTo(lists, n, id)
    ensures index.Keys == AllIdsUpTo(lists, n + 1)
    ensures forall id :: id in index ==> index[id] == FirstUpTo(lists, n + 1, id)
  {
    var items := lists[n];
    index := start;
    for i := 0 to |items|
      invariant index.Keys == start.Keys + IdsUpTo(items, i)
      invariant forall id :: id in start ==> index[id] == start[id]
      invariant forall id :: id in IdsUpTo(items, i) && id !in start ==> index[id] == FirstWith(items, i, id)
    {
      if items[i].chunkId !in index {
        index := index[items[i].chunkId := items[i]];
      }
    }
  }

  lemma ShareByRankMap(items: Hits, ranks: map<string, nat>, id: string)
    requires IsRankMap(items, ranks)
    ensures Share(items, id) == if id in ranks then Reciprocal(ranks[id]) else 0.0
  {
  }

  ghost predicate AreRankMaps(lists: seq<Hits>, rankMaps: seq<map<string, nat>>) {
    |rankMaps| == |lists| && forall i :: 0 <= i < |lists| ==> IsRankMap(lists[i], rankMaps[i])
  }

  lemma ScoreByRankMap(lists: seq<Hits>, rankMaps: seq<map<string, nat>>, n: nat, id: string)
    requires AreRankMaps(lists, rankMaps) && n < |lists|
    ensures ScoreUpTo(lists, n + 1, id) ==
            ScoreUpTo(lists, n, id) + if id in rankMaps[n] then Reciprocal(rankMaps[n][id]) else 0.0
  {
    ShareByRankMap(lists[n], rankMaps[n], id);
  }

  /** Sum one id over all rank maps. */
  method SumShares(lists: seq<Hits>, rankMaps: seq<map<string, nat>>, id: string) returns (score: real)
    requires AreRankMaps(lists, rankMaps)
    ensures score == FusedScore(lists, id)
  {
    hide Share, RanksUpTo;
    score := 0.0;
    for i := 0 to |lists|
      invariant score == ScoreUpTo(lists, i, id)
    {
      ScoreByRankMap(lists, rankMaps, i, id);
      if id in rankMaps[i] {
        score := score + Reciprocal(rankMaps[i][id]);
      }
    }
  }

  method BuildRankMaps(lists: seq<Hits>) returns (rankMaps: seq<map<string, nat>>)
    ensures AreRankMaps(lists, rankMaps)
  {
    rankMaps := [];
    for i := 0 to |lists|
      invariant |rankMaps| == i && forall j :: 0 <= j < i ==> IsRankMap(lists[j], rankMaps[j])
    {
      var ranks := RankMap(lists[i]);
      rankMaps := rankMaps + [ranks];
    }
  }

  ghost predicate IsIndex(lists: seq<Hits>, index: map<string, Candidate>) {
    index.Keys == AllIds(lists) && forall id :: id in index ==> index[id] == FirstCandidate(lists, id)
  }

  /** The first candidate of every id. */
  method BuildIndex(lists: seq<Hits>) returns (index: map<string, Candidate>)
    ensures IsIndex(lists, index)
  {
    index := map[];
    for i := 0 to |lists|
      invariant index.Keys == AllIdsUpTo(lists, i)
      invariant forall id :: id in index ==> index[id] == FirstUpTo(lists, i, id)
    {
      index := AddFirsts(lists, i, index);
    }
  }

  method ScoreRow(lists: seq<Hits>, rankMaps: seq<map<string, nat>>, id: string, first: Candidate) returns (row: Candidate)
    requires AreRankMaps(lists, rankMaps)
    requires id in AllIds(lists) && first == FirstCandidate(lists, id)
    ensures row == FusedRow(lists)(id)
  {
    var score := SumShares(lists, rankMaps, id);
    row := first.(score := score, layer := "rrf_multi");
  }

  /** Visit the index in arbitrary order and emit one scored row per id. */
  method CollectRows(lists: seq<Hits>, rankMaps: seq<map<string, nat>>, index: map<string, Candidate>) returns (merged: Hits)
    requires AreRankMaps(lists, rankMaps)
    requires IsIndex(lists, index)
    ensures multiset(merged) == multiset(RowsFor(FusedRow(lists), index.Keys))
  {
    hide FirstUpTo, AllIdsUpTo, RanksUpTo, RowsFor;
    merged := [];
    var remaining := index.Keys;
    while remaining != {}
      invariant remaining <= index.Keys
      invariant multiset(merged) == multiset(RowsVisited(FusedRow(lists), index.Keys, remaining))
      decreases |remaining|
    {
      var id :| id in remaining;  // map iteration order is arbitrary
      var row := ScoreRow(lists, rankMaps, id, index[id]);
      RowsForNext(FusedRow(lists), index.Keys, remaining, id);
      merged, remaining := merged + [row], remaining - {id};
    }
  }

  method FuseMultipleResultsRRF(results: seq<Hits>, topK: int) returns (fused: Hits)
    ensures IsTop(multiset(FusedRows(results)), ScoreOf, topK, fused)
    ensures FusionOf(results, topK, fused)
  {
    var rankMaps := BuildRankMaps(results);
    var index := BuildIndex(results);
    var merged := CollectRows(results, rankMaps, index);
    fused := TopByScore(merged, ScoreOf, topK);
    TopRowsAreFusion(results, FusedRow(results), topK, fused);
  }

  // ---------------------------------------------------------------- the dense/sparse merge

  /** The last of the first n items with this id. */
  function LastWith(items: Hits, n: nat, id: string): (c: Candidate)
    requires n <= |items| && id in IdsUpTo(items, n)
    ensures c.chunkId == id
  {
    if items[n - 1].chunkId == id then items[n - 1] else LastWith(items, n - 1, id)
  }

  /** The dense list is indexed by overwriting, so its last occurrence represents an id; sparse only fills gaps. */
  function Representative(dense: Hits, sparse: Hits, id: string): (c: Candidate)
    requires id in IdsOf(dense) + IdsOf(sparse)
    ensures c.chunkId == id
  {
    if id in IdsOf(dense) then LastWith(dense, |dense|, id) else FirstWith(sparse, |sparse|, id)
  }

  function MergedRow(dense: Hits, sparse: Hits): string -> Candidate {
    id => if id in IdsOf(dense) + IdsOf(sparse)
          then Representative(dense, sparse, id).(score := FusedScore([dense, sparse], id), layer := "rrf_hybrid")
          else Candidate(id, "", "", 0.0, "", "", "", "")
  }

  function MergedRows(dense: Hits, sparse: Hits): set<Candidate> {
    RowsFor(MergedRow(dense, sparse), IdsOf(dense) + IdsOf(sparse))
  }

  lemma PairOfLists(dense: Hits, sparse: Hits, id: string)
    ensures AllIds([dense, sparse]) == IdsOf(dense) + IdsOf(sparse)
    ensures FusedScore([dense, sparse], id) == Share(dense, id) + Share(sparse, id)
  {
    var lists := [dense, sparse];
    assert AllIdsUpTo(lists, 1) == AllIdsUpTo(lists, 0) + IdsOf(lists[0]);
    assert ScoreUpTo(lists, 1, id) == ScoreUpTo(lists, 0, id) + Share(lists[0], id);
  }

  method IndexPair(dense: Hits, sparse: Hits) returns (index: map<string, Candidate>)
    ensures IsPairIndex(dense, sparse, index)
  {
    index := map[];
    for i := 0 to |dense|
      invariant index.Keys == IdsUpTo(dense, i)
      invariant forall id :: id in index ==> index[id] == LastWith(dense, i, id)
    {
      index := index[dense[i].chunkId := dense[i]];
    }
    var denseIndex := index;
    for i := 0 to |sparse|
      invariant index.Keys == denseIndex.Keys + IdsUpTo(sparse, i)
      invariant forall id :: id in denseIndex ==> index[id] == denseIndex[id]
      invariant forall id :: id in IdsUpTo(sparse, i) && id !in denseIndex ==> index[id] == FirstWith(sparse, i, id)
    {
      if sparse[i].chunkId !in index {
        index := index[sparse[i].chunkId := sparse[i]];
      }
    }
  }

  ghost predicate IsPairIndex(dense: Hits, sparse: Hits, index: map<string, Candidate>) {
    index.Keys == IdsOf(dense) + IdsOf(sparse)
    && forall id :: id in index ==> index[id] == Representative(dense, sparse, id)
  }

  method MergeRow(dense: Hits, sparse: Hits, denseRanks: map<string, nat>, sparseRanks: map<string, nat>,
                  id: string, item: Candidate) returns (row: Candidate)
    requires IsRankMap(dense, denseRanks) && IsRankMap(sparse, sparseRanks)
    requires id in IdsOf(dense) + IdsOf(sparse) && item == Representative(dense, sparse, id)
    ensures row == MergedRow(dense, sparse)(id)
  {
    ShareByRankMap(dense, denseRanks, id);
    ShareByRankMap(sparse, sparseRanks, id);
    var fused := 0.0;
    if id in denseRanks { fused := fused + Reciprocal(denseRanks[id]); }
    if id in sparseRanks { fused := fused + Reciprocal(sparseRanks[id]); }
    PairOfLists(dense, sparse, id);
    row := item.(score := fused, layer := "rrf_hybrid");
  }

  method CollectMerged(dense: Hits, sparse: Hits, denseRanks: map<string, nat>, sparseRanks: map<string, nat>,
                       index: map<string, Candidate>) returns (merged: Hits)
    requires IsRankMap(dense, denseRanks) && IsRankMap(sparse, sparseRanks) && IsPairIndex(dense, sparse, index)
    ensures multiset(merged) == multiset(RowsFor(MergedRow(dense, sparse), index.Keys))
  {
    hide Representative, IdsUpTo, RankUpTo, RanksUpTo, RowsFor;
    merged := [];
    var remaining := index.Keys;
    while remaining != {}
      invariant remaining <= index.Keys
      invariant multiset(merged) == multiset(RowsVisited(MergedRow(dense, sparse), index.Keys, remaining))
      decreases |remaining|
    {
      var id :| id in remaining;  // map iteration order is arbitrary
      var row := MergeRow(dense, sparse, denseRanks, sparseRanks, id, index[id]);
      RowsForNext(MergedRow(dense, sparse), index.Keys, remaining, id);
      merged, remaining := merged + [row], remaining - {id};
    }
  }

  lemma MergedRowScores(dense: Hits, sparse: Hits)
    ensures ScoresIds([dense, sparse], MergedRow(dense, sparse), AllIds([dense, sparse]))
    ensures AllIds([dense, sparse]) == IdsOf(dense) + IdsOf(sparse)
  {
    PairOfLists(dense, sparse, "");
  }

  method MergeCandidatesRRF(dense: Hits, sparse: Hits, topK: int) returns (merged: Hits)
    ensures IsTop(multiset(MergedRows(dense, sparse)), ScoreOf, topK, merged)
    ensures FusionOf([dense, sparse], topK, merged)
  {
    var denseRanks := RankMap(dense);
    var sparseRanks := RankMap(sparse);
    var index := IndexPair(dense, sparse);
    var rows := CollectMerged(dense, sparse, denseRanks, sparseRanks, index);
    merged := TopByScore(rows, ScoreOf, topK);
    MergedRowScores(dense, sparse);
    TopRowsAreFusion([dense, sparse], MergedRow(dense, sparse), topK, merged);
  }
}
