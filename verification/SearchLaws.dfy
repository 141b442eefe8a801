/** What the rows of the store's searches show, said of the stored records alone. */
module SearchLaws {
  import opened Domain
  import opened Ranking
  import opened Vectors
  import opened CosineLaws
  import opened Upsert
  import opened Bm25
  import Bm25Laws
  import opened MemoryStore
  import opened StoreLaws

  /** The row shows the chunk: its ids, its source, its text and its class. */
  ghost predicate ShowsChunk(r: Candidate, c: Chunk) {
    && r.chunkId == c.chunkId && r.documentId == c.documentId && r.summaryId == c.summaryId
    && r.source == c.source && r.text == c.text && r.contentClass == c.contentClass
  }

  /** The row shows the summary, which stands in for a chunk under its own id. */
  ghost predicate ShowsSummary(r: Candidate, s: Summary) {
    && r.chunkId == r.summaryId == s.summaryId && r.documentId == s.documentId
    && r.source == s.source && r.text == s.text && r.contentClass == s.contentClass
  }

  lemma RowShows(c: Chunk, score: real, layer: string, r: Candidate)
    ensures r == ChunkRow(c, score, layer) <==> ShowsChunk(r, c) && r.score == score && r.layer == layer
  {
  }

  lemma SummaryRowShows(s: Summary, score: real, r: Candidate)
    ensures r == SummaryRow(s, score) <==> ShowsSummary(r, s) && r.score == score && r.layer == "summary"
  {
  }

  // ---------------------------------------------------------------- dense search

  /** A dense row shows a filter-passing chunk, scored by its cosine with the query; every such chunk has one. */
  lemma DenseRowMeaning(root: real -> real, source: seq<Chunk>, filter: Filter, query: Vector, n: nat, r: Candidate)
    requires IsRoot(root) && n <= |source|
    ensures r in DenseRows(root, source, filter, query, n) <==>
            exists i :: 0 <= i < n && MatchFilter(source[i].documentId, filter) && ShowsChunk(r, source[i])
                     && r.score == Cosine(root, query, source[i].embedding) && r.layer == "chunk"
  {
    hide MatchFilter, Cosine, IsRoot, ShowsChunk, ChunkRow;
    DenseRowOrigin(root, source, filter, query, n, r);
    forall i | 0 <= i < n
      ensures r == ChunkRow(source[i], Cosine(root, query, source[i].embedding), "chunk") <==>
              ShowsChunk(r, source[i]) && r.score == Cosine(root, query, source[i].embedding) && r.layer == "chunk"
    {
      RowShows(source[i], Cosine(root, query, source[i].embedding), "chunk", r);
    }
  }

  lemma SummaryRowMeaning(root: real -> real, source: seq<Summary>, filter: Filter, query: Vector, n: nat, r: Candidate)
    requires IsRoot(root) && n <= |source|
    ensures r in SummaryRows(root, source, filter, query, n) <==>
            exists i :: 0 <= i < n && MatchFilter(source[i].documentId, filter) && ShowsSummary(r, source[i])
                     && r.score == Cosine(root, query, source[i].embedding) && r.layer == "summary"
  {
    hide MatchFilter, Cosine, IsRoot, ShowsSummary, SummaryRow;
    SummaryRowOrigin(root, source, filter, query, n, r);
    forall i | 0 <= i < n
      ensures r == SummaryRow(source[i], Cosine(root, query, source[i].embedding)) <==>
              ShowsSummary(r, source[i]) && r.score == Cosine(root, query, source[i].embedding) && r.layer == "summary"
    {
      SummaryRowShows(source[i], Cosine(root, query, source[i].embedding), r);
    }
  }

  /** Two vectors whose compared norms with the query are the same and do not vanish. */
  ghost predicate SameNorms(query: Vector, v: Vector, w: Vector) {
    && Comparable(query, v) && Comparable(query, w)
    && Dot(query, query, Compared(query, v)) == Dot(query, query, Compared(query, w))
    && Dot(v, v, Compared(query, v)) == Dot(w, w, Compared(query, w))
  }

  lemma LargerCosineLargerDot(root: real -> real, query: Vector, v: Vector, w: Vector)
    requires IsRoot(root) && SameNorms(query, v, w) && Cosine(root, query, v) >= Cosine(root, query, w)
    ensures Dot(query, v, Compared(query, v)) >= Dot(query, w, Compared(query, w))
  {
    hide Dot, Cosine, IsRoot, Compared;
    CosineTimesNorms(root, query, v);
    CosineTimesNorms(root, query, w);
    RootsPositive(root, query, v);
    var r, s := root(Dot(query, query, Compared(query, v))), root(Dot(v, v, Compared(query, v)));
    SignOfStrictProduct(r, s);
    LargerTimes(Cosine(root, query, v), Cosine(root, query, w), r * s);
  }

  lemma LargerTimes(c: real, e: real, r: real)
    requires c >= e && r > 0.0
    ensures c * r >= e * r
  {
    SignOfProduct(c - e, r);
    assert (c - e) * r == c * r - e * r;
  }

  lemma DifferentKeys(source: seq<Chunk>, i: nat, k: nat)
    requires UniqueKeys(source, ChunkKey) && i < |source| && k < |source| && i != k
    ensures source[i].chunkId != source[k].chunkId
  {
    assert ChunkKey(source[i]) != ChunkKey(source[k]);
  }

  /** The one row of a stored chunk, when chunk ids are unique. */
  lemma RowOfChunk(root: real -> real, source: seq<Chunk>, filter: Filter, query: Vector, i: nat, r: Candidate)
    requires IsRoot(root) && UniqueKeys(source, ChunkKey) && i < |source|
    requires r in DenseRows(root, source, filter, query, |source|) && r.chunkId == source[i].chunkId
    ensures r.score == Cosine(root, query, source[i].embedding)
  {
    hide MatchFilter, Cosine, IsRoot;
    DenseRowMeaning(root, source, filter, query, |source|, r);
    var k :| 0 <= k < |source| && ShowsChunk(r, source[k]) && r.score == Cosine(root, query, source[k].embedding);
    assert ShowsChunk(r, source[k]);
    assert r.chunkId == source[k].chunkId;
    assert r.chunkId == source[i].chunkId;
    if k != i { DifferentKeys(source, i, k); }
  }

  /**
   * Dense search keeps the nearest: among filter-passing chunks with equal compared norms, none with a
   * larger dot product is left out for one with a smaller.
   */
  lemma DenseKeepsNearest(root: real -> real, source: seq<Chunk>, filter: Filter, query: Vector, topK: int, rows: seq<Candidate>,
                          shown: Candidate, i: nat, j: nat)
    requires IsRoot(root) && UniqueKeys(source, ChunkKey) && i < |source| && j < |source|
    requires IsTop(multiset(DenseRows(root, source, filter, query, |source|)), ScoreOf, topK, rows)
    requires shown in rows && shown.chunkId == source[i].chunkId
    requires MatchFilter(source[j].documentId, filter) && forall r :: r in rows ==> r.chunkId != source[j].chunkId
    requires SameNorms(query, source[i].embedding, source[j].embedding)
    ensures var v, w := source[i].embedding, source[j].embedding;
            Dot(query, v, Compared(query, v)) >= Dot(query, w, Compared(query, w))
  {
    hide MatchFilter, Cosine, IsRoot, UniqueKeys, SameNorms, Dot, DenseRows;
    var all := DenseRows(root, source, filter, query, |source|);
    TopMember(multiset(all), ScoreOf, topK, rows, shown);
    RowOfChunk(root, source, filter, query, i, shown);
    var left := ChunkRow(source[j], Cosine(root, query, source[j].embedding), "chunk");
    DenseRowMeaning(root, source, filter, query, |source|, left);
    assert left in all;
    assert left in multiset(all) - multiset(rows);
    assert ScoreOf(shown) >= ScoreOf(left);
    LargerCosineLargerDot(root, query, source[i].embedding, source[j].embedding);
  }

  // ---------------------------------------------------------------- sparse search

  lemma TokensDistinct(lower: char -> char, text: string)
    ensures NoRepeats(Tokens(lower, text))
  {
    var fields := Text.Fields(Lower(lower, text), IsSeparator);
    FirstOccurrencesDistinct(fields, |fields|);
  }

  lemma {:induction false} SharingRowOrigin(lower: char -> char, ln: real -> real, kept: seq<Chunk>, query: seq<string>, n: nat,
                                            r: Candidate) returns (i: nat)
    requires n <= |kept| && r in SharingRows(lower, ln, kept, query, n)
    ensures i < n && SharesToken(lower, kept[i], query) && ShowsChunk(r, kept[i]) && r.layer == "sparse_chunk"
    ensures r.score == DocScore(DocsOf(lower, kept), ln, DocsOf(lower, kept)[i], query, |query|)
  {
    hide SharesToken, DocScore, Tokens;
    if r in SharingRows(lower, ln, kept, query, n - 1) {
      i := SharingRowOrigin(lower, ln, kept, query, n - 1, r);
    } else {
      i := n - 1;
    }
  }

  /**
   * Over a store with unique chunk ids a sparse row shows a filter-passing chunk sharing a token, and its
   * score is the BM25 formula over the texts of the filter-passing chunks.
   */
  lemma SparseRowScore(lower: char -> char, ln: real -> real, source: seq<Chunk>, filter: Filter, query: seq<string>,
                       r: Candidate) returns (i: nat)
    requires LogLike(ln) && UniqueKeys(source, ChunkKey)
    requires var kept := Kept(source, filter, |source|); r in SparseRows(lower, ln, kept, query, |kept|)
    ensures var kept := Kept(source, filter, |source|);
            var docs := DocsOf(lower, kept);
            && i < |kept| && SharesToken(lower, kept[i], query) && ShowsChunk(r, kept[i]) && r.layer == "sparse_chunk"
            && |Bm25Laws.Places(docs, |docs|)| > 0
            && r.score * Bm25Laws.Damping(docs, docs[i], 1) == 2.2 * Bm25Laws.MatchedRarity(docs, ln, docs[i], query, |query|)
  {
    hide SparseRows, SharingRows, DocScore, Tokens, LogLike, UniqueKeys, Kept, Bm25Laws.Damping, Bm25Laws.Places,
         Bm25Laws.MatchedRarity;
    var kept := Kept(source, filter, |source|);
    KeptUnique(source, filter, |source|);
    SparseSearchExact(lower, ln, kept, query, |kept|);
    i := SharingRowOrigin(lower, ln, kept, query, |kept|, r);
    var docs := DocsOf(lower, kept);
    TokensDistinct(lower, kept[i].text);
    Bm25Laws.ScoreFormula(docs, ln, docs[i], query, |query|);
  }

  // ---------------------------------------------------------------- summary expansion

  /** The places before p that hold chunks of the same summary. */
  ghost function Earlier(source: seq<Chunk>, p: nat): set<nat>
    requires p < |source|
  {
    set q: nat | q < p && source[q].summaryId == source[p].summaryId
  }

  ghost function PlacesOf(source: seq<Chunk>, id: string, n: nat): set<nat>
    requires n <= |source|
  {
    set q: nat | q < n && source[q].summaryId == id
  }

  lemma {:induction false} GroupSize(source: seq<Chunk>, id: string, n: nat)
    requires n <= |source|
    ensures |Group(source, id, n)| == |PlacesOf(source, id, n)|
  {
    if n == 0 {
      assert PlacesOf(source, id, 0) == {};
    } else {
      GroupSize(source, id, n - 1);
      if source[n - 1].summaryId == id {
        assert PlacesOf(source, id, n) == PlacesOf(source, id, n - 1) + {n - 1};
      } else {
        assert PlacesOf(source, id, n) == PlacesOf(source, id, n - 1);
      }
    }
  }

  /** A chunk's row stands in its group behind the rows of the earlier chunks of the summary. */
  lemma {:induction false} GroupAt(source: seq<Chunk>, id: string, n: nat, p: nat)
    requires p < n <= |source| && source[p].summaryId == id
    ensures var e := |Earlier(source, p)|;
            e < |Group(source, id, n)| && Group(source, id, n)[e] == ChunkRow(source[p], 0.0, "chunk")
  {
    if p == n - 1 {
      GroupSize(source, id, n - 1);
      assert Earlier(source, p) == PlacesOf(source, id, n - 1);
    } else {
      GroupAt(source, id, n - 1, p);
    }
  }

  lemma {:induction false} PlaceInGroup(source: seq<Chunk>, id: string, n: nat, e: nat) returns (p: nat)
    requires n <= |source| && e < |Group(source, id, n)|
    ensures p < n && source[p].summaryId == id && |Earlier(source, p)| == e
    ensures Group(source, id, n)[e] == ChunkRow(source[p], 0.0, "chunk")
  {
    if e < |Group(source, id, n - 1)| {
      p := PlaceInGroup(source, id, n - 1, e);
    } else {
      p := n - 1;
      GroupSize(source, id, n - 1);
      assert Earlier(source, p) == PlacesOf(source, id, n - 1);
    }
  }

  /** Among the first of its summary: fewer than k chunks of it are stored earlier; a k of 0 or less sets no limit. */
  ghost predicate AmongFirst(source: seq<Chunk>, k: int, p: nat)
    requires p < |source|
  {
    k <= 0 || |Earlier(source, p)| < k
  }

  lemma CutGroupMembers(source: seq<Chunk>, id: string, k: int, r: Candidate)
    ensures r in Cut(Group(source, id, |source|), k) <==>
            exists p: nat :: p < |source| && source[p].summaryId == id && AmongFirst(source, k, p)
                          && r == ChunkRow(source[p], 0.0, "chunk")
  {
    hide Group, Earlier;
    var group := Group(source, id, |source|);
    var part := Cut(group, k);
    if r in part {
      var e :| 0 <= e < |part| && part[e] == r;
      var p := PlaceInGroup(source, id, |source|, e);
      assert AmongFirst(source, k, p);
    }
    if p: nat :| p < |source| && source[p].summaryId == id && AmongFirst(source, k, p) && r == ChunkRow(source[p], 0.0, "chunk") {
      GroupAt(source, id, |source|, p);
      assert part[|Earlier(source, p)|] == r;
    }
  }

  lemma {:induction false} ConcatenatedMembers(source: seq<Chunk>, order: seq<string>, k: int, n: nat, r: Candidate)
    requires n <= |order|
    ensures r in Concatenated(source, order, k, n) <==> exists i :: 0 <= i < n && r in Cut(Group(source, order[i], |source|), k)
  {
    hide Group, Cut;
    if n > 0 { ConcatenatedMembers(source, order, k, n - 1, r); }
  }

  /** The expansion shows exactly the chunks of wanted summaries that are among the first k of their summary. */
  lemma ExpansionExact(source: seq<Chunk>, ids: seq<string>, k: int, out: seq<Candidate>, r: Candidate)
    requires IsExpansion(source, ids, k, out)
    ensures r in out <==>
            exists p: nat :: p < |source| && source[p].summaryId in ids && AmongFirst(source, k, p)
                          && ShowsChunk(r, source[p]) && r.score == 0.0 && r.layer == "chunk"
  {
    hide Group, Concatenated, Cut, AmongFirst, ShowsChunk, ChunkRow;
    var order :| IsGroupOrder(source, ids, order) && out == Concatenated(source, order, k, |order|);
    ConcatenatedMembers(source, order, k, |order|, r);
    if r in out {
      var i :| 0 <= i < |order| && r in Cut(Group(source, order[i], |source|), k);
      CutGroupMembers(source, order[i], k, r);
      var p: nat :| p < |source| && source[p].summaryId == order[i] && AmongFirst(source, k, p)
                    && r == ChunkRow(source[p], 0.0, "chunk");
      RowShows(source[p], 0.0, "chunk", r);
      assert source[p].summaryId in ids;
    }
    if p: nat :| (p < |source| && source[p].summaryId in ids && AmongFirst(source, k, p)
                  && ShowsChunk(r, source[p]) && r.score == 0.0 && r.layer == "chunk") {
      RowShows(source[p], 0.0, "chunk", r);
      var id := source[p].summaryId;
      GroupAt(source, id, |source|, p);
      assert Group(source, id, |source|) != [];
      assert id in order;
      var i :| 0 <= i < |order| && order[i] == id;
      CutGroupMembers(source, id, k, r);
    }
  }
}
