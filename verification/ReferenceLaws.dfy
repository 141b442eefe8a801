/** What deduplicated references are. */
module ReferenceLaws {
  import opened Domain
  import opened Ranking
  import opened Orchestrator

  function KeyOf(r: Reference): string { r.source + "|" + r.chunkId }

  /** The reference cites the candidate: its ids, score, source and text. */
  ghost predicate CitesRow(r: Reference, c: Candidate) {
    r.documentId == c.documentId && r.chunkId == c.chunkId && r.score == c.score && r.source == c.source && r.content == c.text
  }

  lemma OneListCites(rows: seq<Candidate>, r: Reference)
    ensures r in ReferencesTo(rows) <==> exists i :: 0 <= i < |rows| && CitesRow(r, rows[i])
  {
    var refs := ReferencesTo(rows);
    if i :| 0 <= i < |rows| && CitesRow(r, rows[i]) { assert refs[i] == r; }
  }

  /** The references of several lists cite exactly their candidates. */
  lemma {:induction false} AllReferencesCite(lists: seq<seq<Candidate>>, n: nat, r: Reference)
    requires n <= |lists|
    ensures r in AllReferences(lists, n) <==> exists l, i :: 0 <= l < n && 0 <= i < |lists[l]| && CitesRow(r, lists[l][i])
  {
    if n > 0 {
      AllReferencesCite(lists, n - 1, r);
      OneListCites(lists[n - 1], r);
    }
  }

  /** r is the first of the highest-scored references with its key. */
  ghost predicate IsFirstBest(refs: seq<Reference>, r: Reference) {
    exists p: nat :: p < |refs| && refs[p] == r && FirstBestAt(refs, p, |refs|)
  }

  ghost predicate FirstBestAt(refs: seq<Reference>, p: nat, n: nat)
    requires p < n <= |refs|
  {
    forall q :: 0 <= q < n && KeyOf(refs[q]) == KeyOf(refs[p]) ==>
      refs[q].score <= refs[p].score && (q < p ==> refs[q].score < refs[p].score)
  }

  lemma {:induction false} BestIsFirst(refs: seq<Reference>, n: nat, key: string) returns (p: nat)
    requires n <= |refs| && BestRef(refs, n, key).Some?
    ensures p < n && refs[p] == BestRef(refs, n, key).value && KeyOf(refs[p]) == key && FirstBestAt(refs, p, n)
  {
    var before := BestRef(refs, n - 1, key);
    if before.None? {
      p := n - 1;
    } else {
      p := BestIsFirst(refs, n - 1, key);
      if RefKey(refs[n - 1]) == key && refs[n - 1].score > before.value.score { p := n - 1; }
    }
  }

  lemma AllReturned<T(!new)>(all: multiset<T>, out: multiset<T>, y: T)
    requires out <= all && y in all - out
    ensures |out| < |all|
  {
    assert all == out + (all - out);
  }

  lemma BestOfKey(refs: seq<Reference>, best: map<string, Reference>, key: string)
    requires IsBestRefs(refs, |refs|, best) && key in best
    ensures KeyOf(best[key]) == key && IsFirstBest(refs, best[key])
  {
    hide BestRef;
    assert BestRef(refs, |refs|, key) == Some(best[key]);
    var p := BestIsFirst(refs, |refs|, key);
  }

  lemma KeyHasBest(refs: seq<Reference>, best: map<string, Reference>, q: nat)
    requires IsBestRefs(refs, |refs|, best) && q < |refs|
    ensures KeyOf(refs[q]) in best && best[KeyOf(refs[q])].score >= refs[q].score
  {
    assert RefKey(refs[q]) == KeyOf(refs[q]);
    assert BestRef(refs, |refs|, KeyOf(refs[q])).Some?;
  }

  /** Every returned reference is the first best of its key, and no key is returned twice. */
  lemma DedupedRows(refs: seq<Reference>, out: seq<Reference>)
    requires IsDeduped(refs, out)
    ensures forall r :: r in out ==> IsFirstBest(refs, r)
    ensures forall i, j :: 0 <= i < j < |out| ==> KeyOf(out[i]) != KeyOf(out[j]) && out[i].score >= out[j].score
    ensures |out| <= 20
  {
    hide IsBestRefs, IsFirstBest;
    var best: map<string, Reference> :| IsBestRefs(refs, |refs|, best) && IsTop(multiset(best.Values), ReferenceScore, 20, out);
    DrawnFromSet(best.Values, out);
    forall r | r in out
      ensures exists key :: key in best && best[key] == r
      ensures IsFirstBest(refs, r) && KeyOf(r) in best && best[KeyOf(r)] == r
    {
      var key :| key in best && best[key] == r;
      BestOfKey(refs, best, key);
    }
    forall i, j | 0 <= i < j < |out|
      ensures KeyOf(out[i]) != KeyOf(out[j]) && out[i].score >= out[j].score
    {
      assert out[i] in out && out[j] in out;
      assert ReferenceScore(out[i]) >= ReferenceScore(out[j]);
    }
  }

  /** A key is missing only when twenty others, all at least as good, are shown. */
  lemma DedupedComplete(refs: seq<Reference>, out: seq<Reference>, q: nat)
    requires IsDeduped(refs, out) && q < |refs| && forall r :: r in out ==> KeyOf(r) != KeyOf(refs[q])
    ensures |out| == 20 && forall r :: r in out ==> r.score >= refs[q].score
  {
    hide IsBestRefs;
    var best: map<string, Reference> :| IsBestRefs(refs, |refs|, best) && IsTop(multiset(best.Values), ReferenceScore, 20, out);
    KeyHasBest(refs, best, q);
    var y := best[KeyOf(refs[q])];
    BestOfKey(refs, best, KeyOf(refs[q]));
    assert y !in out;
    assert y in best.Values;
    assert y in multiset(best.Values) - multiset(out);
    AllReturned(multiset(best.Values), multiset(out), y);
    forall r | r in out
      ensures r.score >= refs[q].score
    {
      assert ReferenceScore(r) >= ReferenceScore(y);
    }
  }

  /** Chunk ids without a bar, as ingestion writes them, make the key determine source and chunk. */
  lemma KeyInjective(a: Reference, b: Reference)
    requires '|' !in a.chunkId && '|' !in b.chunkId && KeyOf(a) == KeyOf(b)
    ensures a.source == b.source && a.chunkId == b.chunkId
  {
    LastBar(a.source, a.chunkId, b.source, b.chunkId);
    LastBar(b.source, b.chunkId, a.source, a.chunkId);
    var k := KeyOf(a);
    assert a.source == k[..|a.source|] && b.source == k[..|b.source|];
    assert a.chunkId == k[|a.source| + 1..] && b.chunkId == k[|b.source| + 1..];
  }

  lemma LastBar(s: string, c: string, t: string, d: string)
    requires '|' !in d && s + "|" + c == t + "|" + d
    ensures |s| <= |t|
  {
    var k := s + "|" + c;
    assert k[|s|] == '|';
    assert k[|t| + 1..] == d;
    forall i | |t| < i < |k|
      ensures k[i] != '|'
    {
      assert k[i] == k[|t| + 1..][i - |t| - 1];
    }
  }
}
