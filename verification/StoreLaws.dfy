/** What the store's searches mean. */
module StoreLaws {
  import opened Domain
  import opened Ranking
  import opened Vectors
  import opened Upsert
  import opened Bm25
  import Bm25Laws
  import opened MemoryStore

  // ---------------------------------------------------------------- sparse search is exact

  ghost predicate SharesToken(lower: char -> char, c: Chunk, query: seq<string>) {
    exists k :: 0 <= k < |query| && query[k] in Tokens(lower, c.text)
  }

  /** The rows of exactly the chunks sharing a token with the query, scored from the definitions. */
  ghost function SharingRows(lower: char -> char, ln: real -> real, kept: seq<Chunk>, query: seq<string>, n: nat): seq<Candidate>
    requires n <= |kept|
  {
    if n == 0 then []
    else SharingRows(lower, ln, kept, query, n - 1)
         + if SharesToken(lower, kept[n - 1], query)
           then [ChunkRow(kept[n - 1], DocScore(DocsOf(lower, kept), ln, DocsOf(lower, kept)[n - 1], query, |query|), "sparse_chunk")]
           else []
  }

  lemma {:induction false} KeptIsSubsequence(source: seq<Chunk>, filter: Filter, n: nat, c: Chunk)
    requires n <= |source|
    ensures c in Kept(source, filter, n) <==>
            exists i :: 0 <= i < n && source[i] == c && MatchFilter(c.documentId, filter)
  {
    hide MatchFilter;
    if n > 0 { KeptIsSubsequence(source, filter, n - 1, c); }
  }

  lemma {:induction false} KeptUnique(source: seq<Chunk>, filter: Filter, n: nat)
    requires n <= |source| && UniqueKeys(source, ChunkKey)
    ensures UniqueKeys(Kept(source, filter, n), ChunkKey)
  {
    hide MatchFilter;
    if n > 0 {
      KeptUnique(source, filter, n - 1);
      var before := Kept(source, filter, n - 1);
      forall i | 0 <= i < |before|
        ensures ChunkKey(before[i]) != ChunkKey(source[n - 1])
      {
        KeptIsSubsequence(source, filter, n - 1, before[i]);
      }
    }
  }

  lemma OwnSpeaker(kept: seq<Chunk>, i: nat)
    requires UniqueKeys(kept, ChunkKey) && i < |kept|
    ensures Speaker(kept, i) == i
  {
    var p := Speaker(kept, i);
    assert ChunkKey(kept[p]) == ChunkKey(kept[i]);
  }

  lemma PositiveIffShares(lower: char -> char, ln: real -> real, kept: seq<Chunk>, query: seq<string>, i: nat)
    requires LogLike(ln) && i < |kept|
    ensures SparseScore(lower, ln, kept, query, i) > 0.0 <==> SharesToken(lower, kept[Speaker(kept, i)], query)
  {
    hide Tokens, Speaker, LogLike;
    var docs := DocsOf(lower, kept);
    Bm25Laws.PositiveIffShared(docs, ln, docs[Speaker(kept, i)], query, |query|);
  }

  /**
   * With unique ids the positive-score rows are exactly the rows of the filter-passing chunks that
   * share a token with the query.
   */
  lemma {:induction false} SparseSearchExact(lower: char -> char, ln: real -> real, kept: seq<Chunk>, query: seq<string>, n: nat)
    requires LogLike(ln) && UniqueKeys(kept, ChunkKey) && n <= |kept|
    ensures SparseRows(lower, ln, kept, query, n) == SharingRows(lower, ln, kept, query, n)
  {
    hide Speaker, LogLike, UniqueKeys, SharesToken, DocScore, Tokens;
    if n > 0 {
      SparseSearchExact(lower, ln, kept, query, n - 1);
      OwnSpeaker(kept, n - 1);
      PositiveIffShares(lower, ln, kept, query, n - 1);
    }
  }

  /** A repeated id breaks exactness: an earlier match is hidden by a later chunk with the same id that does not match. */
  lemma RepeatedIdHidesMatch(lower: char -> char, ln: real -> real, kept: seq<Chunk>, query: seq<string>, i: nat, j: nat)
    requires LogLike(ln) && i < j < |kept| && kept[i].chunkId == kept[j].chunkId
    requires forall k :: i <= k < |kept| && kept[k].chunkId == kept[i].chunkId && k != i ==> !SharesToken(lower, kept[k], query)
    ensures SparseScore(lower, ln, kept, query, i) <= 0.0
  {
    PositiveIffShares(lower, ln, kept, query, i);
    assert Speaker(kept, i) >= j;
  }

  /** Sparse search over a store with unique ids, after the cut: a best-first choice among exactly the sharing chunks. */
  lemma SparseSearchAnswers(lower: char -> char, ln: real -> real, source: seq<Chunk>, filter: Filter, query: string, topK: int,
                            rows: seq<Candidate>)
    requires LogLike(ln) && UniqueKeys(source, ChunkKey)
    requires var kept := Kept(source, filter, |source|);
             IsTop(multiset(SparseRows(lower, ln, kept, Tokens(lower, query), |kept|)), ScoreOf, topK, rows)
    ensures var kept := Kept(source, filter, |source|);
            IsTop(multiset(SharingRows(lower, ln, kept, Tokens(lower, query), |kept|)), ScoreOf, topK, rows)
  {
    hide IsTop, Kept;
    KeptUnique(source, filter, |source|);
    var kept := Kept(source, filter, |source|);
    SparseSearchExact(lower, ln, kept, Tokens(lower, query), |kept|);
  }

  // ---------------------------------------------------------------- dense and summary search

  lemma {:induction false} DenseRowOrigin(root: real -> real, source: seq<Chunk>, filter: Filter, embedding: Vector, n: nat, r: Candidate)
    requires IsRoot(root) && n <= |source|
    ensures r in DenseRows(root, source, filter, embedding, n) <==>
            exists i :: 0 <= i < n && MatchFilter(source[i].documentId, filter)
                     && r == ChunkRow(source[i], Cosine(root, embedding, source[i].embedding), "chunk")
  {
    hide MatchFilter, Cosine, IsRoot;
    if n > 0 { DenseRowOrigin(root, source, filter, embedding, n - 1, r); }
  }

  lemma {:induction false} SummaryRowOrigin(root: real -> real, source: seq<Summary>, filter: Filter, embedding: Vector, n: nat, r: Candidate)
    requires IsRoot(root) && n <= |source|
    ensures r in SummaryRows(root, source, filter, embedding, n) <==>
            exists i :: 0 <= i < n && MatchFilter(source[i].documentId, filter)
                     && r == SummaryRow(source[i], Cosine(root, embedding, source[i].embedding))
  {
    hide MatchFilter, Cosine, IsRoot;
    if n > 0 { SummaryRowOrigin(root, source, filter, embedding, n - 1, r); }
  }

  // ---------------------------------------------------------------- summary expansion

  lemma {:induction false} GroupOrigin(source: seq<Chunk>, id: string, n: nat, r: Candidate)
    requires n <= |source| && r in Group(source, id, n)
    ensures exists i :: 0 <= i < n && source[i].summaryId == id && r == ChunkRow(source[i], 0.0, "chunk")
  {
    if r in Group(source, id, n - 1) { GroupOrigin(source, id, n - 1, r); }
  }

  lemma {:induction false} ConcatenatedOrigin(source: seq<Chunk>, order: seq<string>, k: int, n: nat, r: Candidate)
    requires n <= |order| && r in Concatenated(source, order, k, n)
    ensures exists i :: 0 <= i < n && r in Group(source, order[i], |source|)
  {
    hide Group;
    if r in Concatenated(source, order, k, n - 1) {
      ConcatenatedOrigin(source, order, k, n - 1, r);
    } else {
      assert r in Group(source, order[n - 1], |source|);
    }
  }

  /** Every row of an expansion belongs to a stored chunk of a wanted summary. */
  lemma ExpansionOrigin(source: seq<Chunk>, ids: seq<string>, k: int, out: seq<Candidate>, r: Candidate)
    requires IsExpansion(source, ids, k, out) && r in out
    ensures r.summaryId in ids
    ensures exists i :: 0 <= i < |source| && source[i].summaryId == r.summaryId && r == ChunkRow(source[i], 0.0, "chunk")
  {
    hide Group;
    var order :| IsGroupOrder(source, ids, order) && out == Concatenated(source, order, k, |order|);
    ConcatenatedOrigin(source, order, k, |order|, r);
    var i :| 0 <= i < |order| && r in Group(source, order[i], |source|);
    GroupOrigin(source, order[i], |source|, r);
  }

  function CountOf(rows: seq<Candidate>, id: string, n: nat): nat
    requires n <= |rows|
  {
    if n == 0 then 0 else CountOf(rows, id, n - 1) + if rows[n - 1].summaryId == id then 1 else 0
  }

  lemma {:induction false} CountInConcatenation(a: seq<Candidate>, b: seq<Candidate>, id: string, n: nat)
    requires n <= |b|
    ensures CountOf(a + b, id, |a| + n) == CountOf(a, id, |a|) + CountOf(b, id, n)
  {
    if n == 0 {
      CountPrefix(a + b, a, id, |a|);
    } else {
      CountInConcatenation(a, b, id, n - 1);
    }
  }

  lemma {:induction false} CountPrefix(a: seq<Candidate>, b: seq<Candidate>, id: string, n: nat)
    requires n <= |a| && n <= |b| && forall i :: 0 <= i < n ==> a[i] == b[i]
    ensures CountOf(a, id, n) == CountOf(b, id, n)
  {
    if n > 0 { CountPrefix(a, b, id, n - 1); }
  }

  lemma {:induction false} CountAll(rows: seq<Candidate>, id: string, own: string, n: nat)
    requires n <= |rows| && forall r :: r in rows ==> r.summaryId == own
    ensures CountOf(rows, id, n) == if id == own then n else 0
  {
    if n > 0 { CountAll(rows, id, own, n - 1); }
  }

  lemma CutGroupCount(source: seq<Chunk>, own: string, id: string, k: int)
    requires k > 0
    ensures var part := Cut(Group(source, own, |source|), k);
            CountOf(part, id, |part|) <= if id == own then k else 0
  {
    var part := Cut(Group(source, own, |source|), k);
    forall r | r in part
      ensures r.summaryId == own
    {
      GroupOrigin(source, own, |source|, r);
    }
    CountAll(part, id, own, |part|);
  }

  lemma {:induction false} ConcatenatedCount(source: seq<Chunk>, order: seq<string>, k: int, id: string, n: nat)
    requires k > 0 && NoRepeats(order) && n <= |order|
    ensures var out := Concatenated(source, order, k, n);
            CountOf(out, id, |out|) <= if id in order[..n] then k else 0
  {
    hide Group, Cut;
    if n > 0 {
      ConcatenatedCount(source, order, k, id, n - 1);
      var before, part := Concatenated(source, order, k, n - 1), Cut(Group(source, order[n - 1], |source|), k);
      CutGroupCount(source, order[n - 1], id, k);
      CountInConcatenation(before, part, id, |part|);
      assert order[..n] == order[..n - 1] + [order[n - 1]];
    }
  }

  /** At most k rows of any one summary come out. */
  lemma ExpansionCount(source: seq<Chunk>, ids: seq<string>, k: int, out: seq<Candidate>, id: string)
    requires k > 0 && IsExpansion(source, ids, k, out)
    ensures CountOf(out, id, |out|) <= k
  {
    var order :| IsGroupOrder(source, ids, order) && out == Concatenated(source, order, k, |order|);
    ConcatenatedCount(source, order, k, id, |order|);
  }

  /** Rows taken from a list count no more than the list. */
  lemma {:induction false} CountMonotone(out: seq<Candidate>, all: seq<Candidate>, id: string)
    requires multiset(out) <= multiset(all)
    ensures CountOf(out, id, |out|) <= CountOf(all, id, |all|)
    decreases |out|
  {
    hide CountOf;
    if out == [] {
      NothingCounted(all, id);
    } else {
      var n := |out| - 1;
      var p := MatchLast(out, all);
      CountMonotone(out[..n], all[..p] + all[p + 1..], id);
      CountLast(out, id);
      CountWithout(all, p, id);
    }
  }

  lemma NothingCounted(all: seq<Candidate>, id: string)
    ensures CountOf([], id, 0) == 0
  {
  }

  lemma CountLast(out: seq<Candidate>, id: string)
    requires out != []
    ensures CountOf(out, id, |out|)
         == CountOf(out[..|out| - 1], id, |out| - 1) + if out[|out| - 1].summaryId == id then 1 else 0
  {
    CountPrefix(out, out[..|out| - 1], id, |out| - 1);
  }

  lemma CountWithout(all: seq<Candidate>, p: nat, id: string)
    requires p < |all|
    ensures CountOf(all, id, |all|)
         == CountOf(all[..p] + all[p + 1..], id, |all| - 1) + if all[p].summaryId == id then 1 else 0
  {
    hide CountOf;
    var left, right := all[..p], all[p + 1..];
    CountInConcatenation(left, right, id, |right|);
    assert all == (left + [all[p]]) + right;
    CountInConcatenation(left + [all[p]], right, id, |right|);
    CountInConcatenation(left, [all[p]], id, 1);
    CountOne(all[p], id);
  }

  lemma CountOne(r: Candidate, id: string)
    ensures CountOf([r], id, 1) == if r.summaryId == id then 1 else 0
  {
    assert CountOf([r], id, 1) == CountOf([r], id, 0) + if r.summaryId == id then 1 else 0;
  }
}
