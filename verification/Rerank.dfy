/** Reranking: an external answer applied to the candidates, or the best ones by their own scores. */
module Rerank {
  import opened Domain
  import opened Ranking
  import opened Text

  function TrimLayer(c: Candidate): Candidate {
    c.(layer := TrimSpace(c.layer))
  }

  function TrimLayers(rows: seq<Candidate>): (out: seq<Candidate>)
    ensures |out| == |rows| && forall i :: 0 <= i < |rows| ==> out[i] == TrimLayer(rows[i])
  {
    seq(|rows|, i requires 0 <= i < |rows| => TrimLayer(rows[i]))
  }

  /** Best m rows, best first, layers trimmed. */
  ghost predicate IsFallback(rows: seq<Candidate>, m: int, out: seq<Candidate>) {
    exists kept: seq<Candidate> :: IsTop(multiset(rows), ScoreOf, m, kept) && out == TrimLayers(kept)
  }

  method SortInPlace(a: array<Candidate>)
    modifies a
    ensures Ranked(old(multiset(a[..])), ScoreOf, a[..])
  {
    var sorted := SortByScore(a[..], ScoreOf);
    assert |sorted| == a.Length by { assert |multiset(sorted)| == |multiset(a[..])|; }
    forall i | 0 <= i < a.Length {
      a[i] := sorted[i];
    }
    assert a[..] == sorted;
  }

  method TrimFirst(dup: array<Candidate>, n: nat)
    requires n <= dup.Length
    modifies dup
    ensures dup[..n] == TrimLayers(old(dup[..n]))
  {
    hide TrimSpace;
    for i := 0 to n
      invariant forall k :: i <= k < n ==> dup[k] == old(dup[k])
      invariant forall k :: 0 <= k < i ==> dup[k] == TrimLayer(old(dup[k]))
    {
      dup[i] := dup[i].(layer := TrimSpace(dup[i].layer));
    }
  }

  /** The candidates are copied, so the caller's array keeps its order and its layers. */
  method TopByScore(cands: array<Candidate>, topM: int) returns (top: seq<Candidate>)
    requires topM > 0
    ensures IsFallback(cands[..], topM, top)
  {
    hide TrimLayers, IsTop, Ranked;
    var dup := new Candidate[cands.Length](i requires 0 <= i < cands.Length reads cands => cands[i]);
    assert dup[..] == cands[..];
    SortInPlace(dup);
    ghost var sorted := dup[..];
    CutIsTop(multiset(cands[..]), ScoreOf, topM, sorted);
    var n := dup.Length;
    if n > topM { n := topM; }
    assert dup[..n] == Cut(sorted, topM);
    TrimFirst(dup, n);
    top := dup[..n];
  }

  /** One row of the external reranker's answer. */
  datatype Rescore = Rescore(index: int, score: real)

  /** Rows that name a candidate, with the answered score; the others are skipped. */
  function Rescored(cands: seq<Candidate>, answer: seq<Rescore>, n: nat): seq<Candidate>
    requires n <= |answer|
  {
    if n == 0 then []
    else Rescored(cands, answer, n - 1)
         + if 0 <= answer[n - 1].index < |cands| then [cands[answer[n - 1].index].(score := answer[n - 1].score)] else []
  }

  /** The cut that applies: a non-positive topM keeps everything. */
  function Kept(topM: int, n: nat): int {
    if topM <= 0 then n else topM
  }

  method RescoreAll(cands: array<Candidate>, answer: seq<Rescore>) returns (rows: seq<Candidate>)
    ensures rows == Rescored(cands[..], answer, |answer|)
  {
    rows := [];
    for i := 0 to |answer|
      invariant rows == Rescored(cands[..], answer, i)
    {
      if answer[i].index < 0 || answer[i].index >= cands.Length { continue; }
      rows := rows + [cands[answer[i].index].(score := answer[i].score)];
    }
  }

  /** `answer` is what the service replies, None when no reranker is configured. */
  method RerankRows(answer: Option<Result<seq<Rescore>>>, cands: array<Candidate>, topM: int) returns (r: Result<seq<Candidate>>)
    ensures r.Err? <==> cands.Length > 0 && answer.Some? && answer.value.Err?
    ensures cands.Length == 0 ==> r == Ok([])
    ensures r.Ok? && cands.Length > 0 ==>
              var m := Kept(topM, cands.Length);
              if answer.Some? && Rescored(cands[..], answer.value.value, |answer.value.value|) != []
              then r.value == Cut(Rescored(cands[..], answer.value.value, |answer.value.value|), m)
              else IsFallback(cands[..], m, r.value)
  {
    hide IsFallback, Rescored;
    if cands.Length == 0 { return Ok([]); }
    var m := topM;
    if m <= 0 { m := cands.Length; }
    if answer.None? {
      var top := TopByScore(cands, m);
      return Ok(top);
    }
    if answer.value.Err? { return Err("rerank request failed"); }
    var rows := RescoreAll(cands, answer.value.value);
    if |rows| == 0 {
      var top := TopByScore(cands, m);
      return Ok(top);
    }
    r := Ok(if |rows| > m then rows[..m] else rows);
  }

  /** Zero or one candidate is passed through; more are reranked and cut to topM. */
  method RerankAndTrim(answer: Option<Result<seq<Rescore>>>, rows: seq<Candidate>, topM: int) returns (r: Result<seq<Candidate>>)
    ensures |rows| <= 1 ==> r == Ok(rows)
    ensures r.Ok? ==> IsTrimmed(answer, rows, topM, r.value)
    ensures r.Err? ==> answer.Some? && answer.value.Err?
  {
    hide IsFallback, Rescored;
    if |rows| <= 1 { return Ok(rows); }
    var cands := new Candidate[|rows|](i requires 0 <= i < |rows| => rows[i]);
    assert cands[..] == rows;
    r := RerankRows(answer, cands, topM);
  }

  /** What `RerankAndTrim` may answer. */
  ghost predicate IsTrimmed(answer: Option<Result<seq<Rescore>>>, rows: seq<Candidate>, topM: int, out: seq<Candidate>) {
    if |rows| <= 1 then out == rows
    else
      && (answer.Some? ==> answer.value.Ok?)
      && var m := Kept(topM, |rows|);
         if answer.Some? && Rescored(rows, answer.value.value, |answer.value.value|) != []
         then out == Cut(Rescored(rows, answer.value.value, |answer.value.value|), m)
         else IsFallback(rows, m, out)
  }

  // ---------------------------------------------------------------- laws

  /** Nothing but the score, or surrounding blanks of the layer, differs. */
  ghost predicate SameItem(out: Candidate, from: Candidate) {
    out == from.(score := out.score) || out == TrimLayer(from)
  }

  lemma {:induction false} RescoredOrigin(cands: seq<Candidate>, answer: seq<Rescore>, n: nat, r: Candidate)
    requires n <= |answer| && r in Rescored(cands, answer, n)
    ensures exists i :: 0 <= i < |cands| && r == cands[i].(score := r.score)
  {
    if r in Rescored(cands, answer, n - 1) {
      RescoredOrigin(cands, answer, n - 1, r);
    } else {
      assert r == cands[answer[n - 1].index].(score := r.score);
    }
  }

  lemma FallbackOrigin(rows: seq<Candidate>, m: int, out: seq<Candidate>, r: Candidate)
    requires IsFallback(rows, m, out) && r in out
    ensures exists i :: 0 <= i < |rows| && r == TrimLayer(rows[i])
  {
    hide TrimLayer, IsTop;
    var kept: seq<Candidate> :| IsTop(multiset(rows), ScoreOf, m, kept) && out == TrimLayers(kept);
    var k :| 0 <= k < |out| && out[k] == r;
    TopMember(multiset(rows), ScoreOf, m, kept, kept[k]);
  }

  /** Whatever the reranker answers: every item is an input candidate, and at most topM remain of two or more. */
  lemma RerankedItems(answer: Option<Result<seq<Rescore>>>, rows: seq<Candidate>, topM: int, out: seq<Candidate>)
    requires IsTrimmed(answer, rows, topM, out)
    ensures forall r :: r in out ==> exists i :: 0 <= i < |rows| && SameItem(r, rows[i])
    ensures |rows| > 1 && topM > 0 ==> |out| <= topM
  {
    hide Rescored, TrimLayer;
    forall r | r in out
      ensures exists i :: 0 <= i < |rows| && SameItem(r, rows[i])
    {
      if |rows| <= 1 {
        var i :| 0 <= i < |rows| && rows[i] == r;
        assert SameItem(r, rows[i]);
      } else if answer.Some? && Rescored(rows, answer.value.value, |answer.value.value|) != [] {
        RescoredOrigin(rows, answer.value.value, |answer.value.value|, r);
        var i :| 0 <= i < |rows| && r == rows[i].(score := r.score);
        assert SameItem(r, rows[i]);
      } else {
        FallbackOrigin(rows, Kept(topM, |rows|), out, r);
        var i :| 0 <= i < |rows| && r == TrimLayer(rows[i]);
        assert SameItem(r, rows[i]);
      }
    }
  }

  /** How many of the first n answered rows name a candidate. */
  function Naming(answer: seq<Rescore>, size: nat, n: nat): nat
    requires n <= |answer|
  {
    if n == 0 then 0 else Naming(answer, size, n - 1) + if 0 <= answer[n - 1].index < size then 1 else 0
  }

  /** Answered rows that name a candidate come out in the answer's order, each the named candidate with the answered score. */
  lemma {:induction false} RescoredExact(cands: seq<Candidate>, answer: seq<Rescore>, n: nat, k: nat)
    requires k < n <= |answer|
    ensures |Rescored(cands, answer, n)| == Naming(answer, |cands|, n)
    ensures 0 <= answer[k].index < |cands| ==>
              var p := Naming(answer, |cands|, k);
              && p < |Rescored(cands, answer, n)|
              && Rescored(cands, answer, n)[p] == cands[answer[k].index].(score := answer[k].score)
  {
    RescoredSize(cands, answer, n - 1);
    if k < n - 1 { RescoredExact(cands, answer, n - 1, k); }
  }

  lemma {:induction false} RescoredSize(cands: seq<Candidate>, answer: seq<Rescore>, n: nat)
    requires n <= |answer|
    ensures |Rescored(cands, answer, n)| == Naming(answer, |cands|, n)
  {
    if n > 0 { RescoredSize(cands, answer, n - 1); }
  }

  /** Without a reranker, or when it names no candidate, exactly as many rows remain as the limit allows. */
  lemma TrimmedCount(answer: Option<Result<seq<Rescore>>>, rows: seq<Candidate>, topM: int, out: seq<Candidate>)
    requires IsTrimmed(answer, rows, topM, out) && |rows| > 1
    requires answer.Some? && answer.value.Ok? ==> Naming(answer.value.value, |rows|, |answer.value.value|) == 0
    ensures |out| == if 0 < topM < |rows| then topM else |rows|
  {
    hide TrimLayer;
    if answer.Some? { RescoredSize(rows, answer.value.value, |answer.value.value|); }
  }

  /** A reranker that names candidates decides alone: its first rows, as many as the limit allows. */
  lemma RerankerDecides(answer: seq<Rescore>, rows: seq<Candidate>, topM: int, out: seq<Candidate>)
    requires IsTrimmed(Some(Ok(answer)), rows, topM, out) && |rows| > 1 && Naming(answer, |rows|, |answer|) > 0
    ensures var all, limit := Rescored(rows, answer, |answer|), if topM <= 0 then |rows| else topM;
            out == if |all| <= limit then all else all[..limit]
  {
    RescoredSize(rows, answer, |answer|);
  }

  /** Layers the code assigns carry no surrounding blanks. */
  ghost predicate CleanLayers(all: multiset<Candidate>) {
    forall c :: c in all ==> TrimLayer(c) == c
  }

  /**
   * Truncation composes: without an external reranker, the topM of a topK list is a valid topM of
   * everything that list was cut from.
   */
  lemma TrimOfTopIsTop(all: multiset<Candidate>, topK: int, mid: seq<Candidate>, topM: int, out: seq<Candidate>)
    requires IsTop(all, ScoreOf, topK, mid) && CleanLayers(all) && 0 < topM <= topK
    requires IsTrimmed(None, mid, topM, out)
    ensures IsTop(all, ScoreOf, topM, out)
  {
    hide TrimLayer, IsTop;
    if |mid| <= 1 {
      ShortTop(all, topK, mid, topM);
    } else {
      var kept: seq<Candidate> :| IsTop(multiset(mid), ScoreOf, topM, kept) && out == TrimLayers(kept);
      TopOfTop(all, ScoreOf, topK, mid, topM, kept);
      CleanStays(all, topM, kept);
    }
  }

  lemma CleanStays(all: multiset<Candidate>, topM: int, kept: seq<Candidate>)
    requires IsTop(all, ScoreOf, topM, kept) && CleanLayers(all)
    ensures TrimLayers(kept) == kept
  {
    hide TrimLayer;
    MemberOfSubset(all, kept);
  }

  lemma ShortTop(all: multiset<Candidate>, topK: int, mid: seq<Candidate>, topM: int)
    requires IsTop(all, ScoreOf, topK, mid) && |mid| <= 1 && 0 < topM <= topK
    ensures IsTop(all, ScoreOf, topM, mid)
  {
  }
}
