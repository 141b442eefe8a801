/** Laws of reciprocal rank fusion, for every input and every order in which ties may come out. */
module FusionLaws {
  import opened Arithmetic
  import opened Domain
  import opened Ranking
  import opened Fusion

  // ---------------------------------------------------------------- sums over ids

  function Sum(ids: seq<string>, f: string -> real): real {
    if ids == [] then 0.0 else f(ids[0]) + Sum(ids[1..], f)
  }

  lemma {:induction false} SumZero(ids: seq<string>, f: string -> real)
    requires forall id :: id in ids ==> f(id) == 0.0
    ensures Sum(ids, f) == 0.0
  {
    if ids != [] { SumZero(ids[1..], f); }
  }

  lemma {:induction false} SumPositive(ids: seq<string>, f: string -> real)
    requires forall id :: id in ids ==> f(id) > 0.0
    ensures Sum(ids, f) >= 0.0 && (Sum(ids, f) > 0.0 <==> ids != [])
  {
    if ids != [] {
      assert ids[0] in ids;
      SumPositive(ids[1..], f);
    }
  }

  lemma {:induction false} SumSplits(ids: seq<string>, f: string -> real, g: string -> real, h: string -> real)
    requires forall id :: id in ids ==> h(id) == f(id) + g(id)
    ensures Sum(ids, h) == Sum(ids, f) + Sum(ids, g)
  {
    if ids != [] {
      assert ids[0] in ids;
      SumSplits(ids[1..], f, g, h);
    }
  }

  lemma {:induction false} SumOfConcatenation(left: seq<string>, right: seq<string>, f: string -> real)
    ensures Sum(left + right, f) == Sum(left, f) + Sum(right, f)
  {
    if left == [] {
      assert left + right == right;
    } else {
      assert (left + right)[1..] == left[1..] + right;
      SumOfConcatenation(left[1..], right, f);
    }
  }

  function Only(k: string, v: real): string -> real {
    id => if id == k then v else 0.0
  }

  lemma {:induction false} SumOfOnly(ids: seq<string>, k: string, v: real)
    requires NoRepeats(ids) && k in ids
    ensures Sum(ids, Only(k, v)) == v
  {
    var rest := ids[1..];
    assert NoRepeats(rest);
    if ids[0] == k {
      assert k !in rest;
      SumZero(rest, Only(k, v));
    } else {
      assert k in rest;
      SumOfOnly(rest, k, v);
    }
  }

  // ---------------------------------------------------------------- conservation of score mass

  function ShareIn(items: Hits, n: nat): string -> real
    requires n <= |items|
  {
    id => if RankUpTo(items, n, id) == 0 then 0.0 else Reciprocal(RankUpTo(items, n, id))
  }

  function ScoreIn(lists: seq<Hits>, n: nat): string -> real
    requires n <= |lists|
  {
    id => ScoreUpTo(lists, n, id)
  }

  /** The mass the first n items put in: 1/(60 + rank) for each position where an id occurs for the first time. */
  function ListMass(items: Hits, n: nat): real
    requires n <= |items|
  {
    if n == 0 then 0.0
    else ListMass(items, n - 1) + if items[n - 1].chunkId in IdsUpTo(items, n - 1) then 0.0 else 1.0 / (60.0 + n as real)
  }

  function TotalMass(lists: seq<Hits>, n: nat): real
    requires n <= |lists|
  {
    if n == 0 then 0.0 else TotalMass(lists, n - 1) + ListMass(lists[n - 1], |lists[n - 1]|)
  }

  function ScoreMass(rows: Hits): real {
    if rows == [] then 0.0 else rows[0].score + ScoreMass(rows[1..])
  }

  lemma ShareOneMore(items: Hits, n: nat, id: string)
    requires n < |items|
    ensures var added := if items[n].chunkId in IdsUpTo(items, n) then 0.0 else Reciprocal(n + 1);
            ShareIn(items, n + 1)(id) == ShareIn(items, n)(id) + Only(items[n].chunkId, added)(id)
  {
  }

  lemma MassOneMore(items: Hits, n: nat)
    requires n < |items|
    ensures ListMass(items, n + 1)
         == ListMass(items, n) + if items[n].chunkId in IdsUpTo(items, n) then 0.0 else Reciprocal(n + 1)
  {
  }

  lemma SharesStep(items: Hits, n: nat, ids: seq<string>)
    requires n < |items| && NoRepeats(ids) && items[n].chunkId in ids
    ensures Sum(ids, ShareIn(items, n + 1)) - Sum(ids, ShareIn(items, n)) == ListMass(items, n + 1) - ListMass(items, n)
  {
    hide Sum, ListMass, Reciprocal;
    MassOneMore(items, n);
    var k := items[n].chunkId;
    var added := if k in IdsUpTo(items, n) then 0.0 else Reciprocal(n + 1);
    forall id | id in ids
      ensures ShareIn(items, n + 1)(id) == ShareIn(items, n)(id) + Only(k, added)(id)
    {
      ShareOneMore(items, n, id);
    }
    SumSplits(ids, ShareIn(items, n), Only(k, added), ShareIn(items, n + 1));
    SumOfOnly(ids, k, added);
  }

  lemma NothingShared(items: Hits, ids: seq<string>)
    ensures Sum(ids, ShareIn(items, 0)) == 0.0
  {
    SumZero(ids, ShareIn(items, 0));
  }

  ghost predicate Covers(ids: seq<string>, items: Hits) {
    forall i :: 0 <= i < |items| ==> items[i].chunkId in ids
  }

  lemma {:induction false} SharesAddUp(items: Hits, n: nat, ids: seq<string>)
    requires n <= |items| && NoRepeats(ids) && Covers(ids, items)
    ensures Sum(ids, ShareIn(items, n)) == ListMass(items, n)
  {
    hide Sum, ShareIn;
    if n == 0 {
      NothingShared(items, ids);
    } else {
      SharesAddUp(items, n - 1, ids);
      SharesStep(items, n - 1, ids);
    }
  }

  lemma ScoresStep(lists: seq<Hits>, n: nat, ids: seq<string>)
    requires n < |lists|
    ensures Sum(ids, ScoreIn(lists, n + 1)) == Sum(ids, ScoreIn(lists, n)) + Sum(ids, ShareIn(lists[n], |lists[n]|))
  {
    SumSplits(ids, ScoreIn(lists, n), ShareIn(lists[n], |lists[n]|), ScoreIn(lists, n + 1));
  }

  lemma {:induction false} ScoresAddUp(lists: seq<Hits>, n: nat, ids: seq<string>)
    requires n <= |lists| && NoRepeats(ids)
    requires forall l :: 0 <= l < |lists| ==> Covers(ids, lists[l])
    ensures Sum(ids, ScoreIn(lists, n)) == TotalMass(lists, n)
  {
    hide Sum, Share, ListMass;
    if n == 0 {
      SumZero(ids, ScoreIn(lists, 0));
    } else {
      ScoresAddUp(lists, n - 1, ids);
      SharesAddUp(lists[n - 1], |lists[n - 1]|, ids);
      ScoresStep(lists, n - 1, ids);
    }
  }

  function IdSeq(rows: Hits): (ids: seq<string>)
    ensures |ids| == |rows| && forall i :: 0 <= i < |rows| ==> ids[i] == rows[i].chunkId
  {
    seq(|rows|, i requires 0 <= i < |rows| => rows[i].chunkId)
  }

  lemma {:induction false} MassOfScores(rows: Hits, f: string -> real)
    requires forall c :: c in rows ==> c.score == f(c.chunkId)
    ensures ScoreMass(rows) == Sum(IdSeq(rows), f)
  {
    if rows != [] {
      assert rows[0] in rows;
      MassOfScores(rows[1..], f);
      assert IdSeq(rows)[1..] == IdSeq(rows[1..]);
    }
  }

  lemma {:induction false} Enumerate(ids: set<string>) returns (s: seq<string>)
    ensures NoRepeats(s) && |s| == |ids| && forall id :: id in s <==> id in ids
  {
    if ids == {} {
      s := [];
    } else {
      var id :| id in ids;
      var rest := Enumerate(ids - {id});
      s := [id] + rest;
    }
  }

  lemma {:induction false} AllIdsHold(lists: seq<Hits>, n: nat, l: nat, i: nat)
    requires l < n <= |lists| && i < |lists[l]|
    ensures lists[l][i].chunkId in AllIdsUpTo(lists, n)
  {
    if l == n - 1 {
      IdOfMember(lists[l], lists[l][i]);
    } else {
      AllIdsHold(lists, n - 1, l, i);
    }
  }

  lemma {:induction false} IdsAreMembers(rows: Hits, n: nat, id: string)
    requires n <= |rows| && id in IdsUpTo(rows, n)
    ensures exists i :: 0 <= i < n && rows[i].chunkId == id
  {
    if rows[n - 1].chunkId != id { IdsAreMembers(rows, n - 1, id); }
  }

  ghost function IdSet(rows: Hits): set<string> {
    set id | id in IdSeq(rows)
  }

  lemma IdSeqDistinct(lists: seq<Hits>, topK: int, out: Hits)
    requires FusionOf(lists, topK, out)
    ensures NoRepeats(IdSeq(out)) && IdSet(out) <= AllIds(lists) && |IdSet(out)| == |out|
  {
    var ids := IdSeq(out);
    DistinctCount(ids, IdSet(out));
    forall id | id in IdSet(out)
      ensures id in AllIds(lists)
    {
      var i :| 0 <= i < |ids| && ids[i] == id;
      assert out[i] in out;
    }
  }

  /** The returned ids followed by the omitted ones enumerate all ids once. */
  lemma OmittedIds(lists: seq<Hits>, topK: int, out: Hits) returns (omitted: seq<string>)
    requires FusionOf(lists, topK, out)
    ensures NoRepeats(IdSeq(out) + omitted)
    ensures forall id :: id in IdSeq(out) + omitted <==> id in AllIds(lists)
    ensures |out| + |omitted| == |AllIds(lists)|
  {
    IdSeqDistinct(lists, topK, out);
    omitted := Enumerate(AllIds(lists) - IdSet(out));
    DistinctConcatenation(IdSeq(out), omitted);
  }

  lemma DistinctConcatenation(a: seq<string>, b: seq<string>)
    requires NoRepeats(a) && NoRepeats(b) && forall id :: id in b ==> id !in a
    ensures NoRepeats(a + b)
  {
    forall i, j | 0 <= i < j < |a + b|
      ensures (a + b)[i] != (a + b)[j]
    {
      if i < |a| <= j { assert b[j - |a|] in b; }
    }
  }

  lemma {:induction false} DistinctCount(ids: seq<string>, s: set<string>)
    requires NoRepeats(ids) && s == set id | id in ids
    ensures |s| == |ids|
  {
    if ids == [] {
      assert s == {};
    } else {
      var rest := set id | id in ids[1..];
      DistinctCount(ids[1..], rest);
      assert ids == [ids[0]] + ids[1..];
      assert s == rest + {ids[0]};
    }
  }

  /**
   * Conservation: the returned scores never exceed the mass of the input ranks, and they equal it
   * exactly when nothing was cut.
   */
  lemma MassConserved(lists: seq<Hits>, topK: int, out: Hits)
    requires FusionOf(lists, topK, out)
    ensures ScoreMass(out) <= TotalMass(lists, |lists|)
    ensures ScoreMass(out) == TotalMass(lists, |lists|) <==> |out| == |AllIds(lists)|
  {
    var omitted := OmittedIds(lists, topK, out);
    var ids, f := IdSeq(out) + omitted, ScoreIn(lists, |lists|);
    forall l | 0 <= l < |lists|
      ensures Covers(ids, lists[l])
    {
      ListCovered(lists, l, ids);
    }
    ScoresAddUp(lists, |lists|, ids);
    SumOfConcatenation(IdSeq(out), omitted, f);
    MassOfScores(out, f);
    OmittedMass(lists, omitted);
  }

  lemma ListCovered(lists: seq<Hits>, l: nat, ids: seq<string>)
    requires l < |lists| && forall id :: id in AllIds(lists) ==> id in ids
    ensures Covers(ids, lists[l])
  {
    forall i | 0 <= i < |lists[l]|
      ensures lists[l][i].chunkId in ids
    {
      AllIdsHold(lists, |lists|, l, i);
    }
  }

  lemma OmittedMass(lists: seq<Hits>, omitted: seq<string>)
    requires forall id :: id in omitted ==> id in AllIds(lists)
    ensures Sum(omitted, ScoreIn(lists, |lists|)) >= 0.0
    ensures Sum(omitted, ScoreIn(lists, |lists|)) > 0.0 <==> omitted != []
  {
    forall id | id in omitted
      ensures ScoreIn(lists, |lists|)(id) > 0.0
    {
      ScoreBounds(lists, |lists|, id);
    }
    SumPositive(omitted, ScoreIn(lists, |lists|));
  }

  /** Every returned score lies in (0, m/61] for m input lists. */
  lemma FusedScoreRange(lists: seq<Hits>, topK: int, out: Hits, c: Candidate)
    requires FusionOf(lists, topK, out) && c in out
    ensures 0.0 < c.score <= |lists| as real / 61.0
  {
    ScoreBounds(lists, |lists|, c.chunkId);
  }

  // ---------------------------------------------------------------- the order of the lists is irrelevant

  lemma {:induction false} ScoreWithout(lists: seq<Hits>, at: nat, id: string)
    requires at < |lists|
    ensures FusedScore(lists, id) == FusedScore(lists[..at] + lists[at + 1..], id) + Share(lists[at], id)
  {
    hide Share;
    var n := |lists| - 1;
    var without := lists[..at] + lists[at + 1..];
    ScorePrefix(lists, lists[..n], n, id);
    if at == n {
      assert without == lists[..n];
    } else {
      ScoreWithout(lists[..n], at, id);
      var shorter := lists[..n][..at] + lists[..n][at + 1..];
      assert shorter == without[..n - 1];
      ScorePrefix(without, shorter, n - 1, id);
      assert without[n - 1] == lists[n];
    }
  }

  lemma {:induction false} ScorePrefix(a: seq<Hits>, b: seq<Hits>, n: nat, id: string)
    requires n <= |a| && n <= |b| && a[..n] == b[..n]
    ensures ScoreUpTo(a, n, id) == ScoreUpTo(b, n, id)
  {
    if n > 0 {
      assert a[..n - 1] == a[..n][..n - 1] == b[..n - 1];
      assert a[n - 1] == a[..n][n - 1] == b[n - 1];
      ScorePrefix(a, b, n - 1, id);
    }
  }

  lemma ScoreOfLast(lists: seq<Hits>, id: string)
    requires lists != []
    ensures FusedScore(lists, id) == FusedScore(lists[..|lists| - 1], id) + Share(lists[|lists| - 1], id)
  {
    hide Share;
    ScorePrefix(lists, lists[..|lists| - 1], |lists| - 1, id);
  }

  /** Fused scores do not depend on the order in which the lists arrive. */
  lemma {:induction false} ListOrderIrrelevant(a: seq<Hits>, b: seq<Hits>, id: string)
    requires multiset(a) == multiset(b)
    ensures FusedScore(a, id) == FusedScore(b, id)
    decreases |a|
  {
    hide FusedScore, Share;
    if a == [] {
      assert |multiset(b)| == 0;
      assert a == b;
    } else {
      var at := MatchLast(a, b);
      ListOrderIrrelevant(a[..|a| - 1], b[..at] + b[at + 1..], id);
      ScoreWithout(b, at, id);
      ScoreOfLast(a, id);
    }
  }

  // ---------------------------------------------------------------- the score, from positions alone

  /** At its first position j, an id gets 1/(60 + j + 1) from a list; a list that does not hold it gives nothing. */
  lemma ShareOfPosition(items: Hits, j: nat)
    requires j < |items| && forall i :: 0 <= i < j ==> items[i].chunkId != items[j].chunkId
    ensures Share(items, items[j].chunkId) * (60.0 + (j + 1) as real) == 1.0
  {
    var id := items[j].chunkId;
    RankIsFirst(items, |items|, id);
    assert FirstRank(items, id) == j + 1;
    var x := 60.0 + (j + 1) as real;
    assert 1.0 / x * x == 1.0;
  }

  lemma ShareOfAbsent(items: Hits, id: string)
    requires forall i :: 0 <= i < |items| ==> items[i].chunkId != id
    ensures Share(items, id) == 0.0
  {
    if id in IdsOf(items) { IdsAreMembers(items, |items|, id); }
  }

  /** How many items precede the first with this id. */
  function Before(items: Hits, id: string): (n: nat)
    ensures n <= |items| && forall i :: 0 <= i < n ==> items[i].chunkId != id
    ensures n < |items| ==> items[n].chunkId == id
  {
    if items == [] || items[0].chunkId == id then 0 else 1 + Before(items[1..], id)
  }

  /** The sum over the lists that hold the id of 1/(60 + its first position, counted from 1). */
  function PositionScore(lists: seq<Hits>, id: string): real {
    if lists == [] then 0.0
    else
      var n := Before(lists[0], id);
      (if n < |lists[0]| then 1.0 / (60.0 + (n + 1) as real) else 0.0) + PositionScore(lists[1..], id)
  }

  lemma ShareByPosition(items: Hits, id: string)
    ensures var n := Before(items, id); Share(items, id) == if n < |items| then 1.0 / (60.0 + (n + 1) as real) else 0.0
  {
    hide Share;
    var n := Before(items, id);
    if n < |items| {
      ShareOfPosition(items, n);
      Quotient(Share(items, id), 60.0 + (n + 1) as real, 1.0);
    } else {
      ShareOfAbsent(items, id);
    }
  }

  /** The fused score is that sum. */
  lemma {:induction false} ScoreByPosition(lists: seq<Hits>, id: string)
    ensures FusedScore(lists, id) == PositionScore(lists, id)
  {
    hide Share;
    if lists != [] {
      ShareByPosition(lists[0], id);
      ScoreByPosition(lists[1..], id);
      ScoreWithout(lists, 0, id);
      assert lists[..0] + lists[1..] == lists[1..];
    }
  }

  /** Every row of a fusion carries the sum over the lists of 1/(60 + first position), and no omitted id has a larger one. */
  lemma RowScoreByPosition(lists: seq<Hits>, topK: int, out: Hits, c: Candidate)
    requires FusionOf(lists, topK, out) && c in out
    ensures c.score == PositionScore(lists, c.chunkId)
    ensures forall id :: id in AllIds(lists) && id !in IdsOf(out) ==> c.score >= PositionScore(lists, id)
  {
    hide FusedScore, AllIdsUpTo, IdsUpTo, PositionScore;
    ScoreByPosition(lists, c.chunkId);
    forall id | id in AllIds(lists) && id !in IdsOf(out)
      ensures c.score >= PositionScore(lists, id)
    {
      ScoreByPosition(lists, id);
    }
  }

  // ---------------------------------------------------------------- consensus

  /** a is ranked before b in every list that holds b. */
  ghost predicate Dominates(lists: seq<Hits>, a: string, b: string) {
    forall l :: l in lists && b in IdsOf(l) ==> 0 < FirstRank(l, a) < FirstRank(l, b)
  }

  lemma ReciprocalDecreases(r: nat, s: nat)
    requires 0 < r < s
    ensures Reciprocal(r) > Reciprocal(s)
  {
    var x, y := RANK_OFFSET + r as real, RANK_OFFSET + s as real;
    assert 1.0 / x - 1.0 / y == (y - x) / (x * y);
  }

  lemma {:induction false} DominanceScores(lists: seq<Hits>, n: nat, a: string, b: string)
    requires n <= |lists| && Dominates(lists, a, b)
    ensures ScoreUpTo(lists, n, a) >= ScoreUpTo(lists, n, b)
    ensures b in AllIdsUpTo(lists, n) ==> ScoreUpTo(lists, n, a) > ScoreUpTo(lists, n, b)
  {
    if n > 0 {
      DominanceScores(lists, n - 1, a, b);
      DominantShare(lists, lists[n - 1], a, b);
    }
  }

  lemma DominantShare(lists: seq<Hits>, l: Hits, a: string, b: string)
    requires Dominates(lists, a, b) && l in lists
    ensures Share(l, a) >= Share(l, b)
    ensures b in IdsOf(l) ==> Share(l, a) > Share(l, b)
  {
    if b in IdsOf(l) {
      ReciprocalDecreases(FirstRank(l, a), FirstRank(l, b));
    } else if a in IdsOf(l) {
      ReciprocalBounds(FirstRank(l, a));
    }
  }

  /**
   * Consensus: when a precedes b in every list holding b, every output that shows b shows a
   * too, earlier, with a strictly higher score — whatever the tie order and however tight the cut.
   */
  lemma ConsensusRespected(lists: seq<Hits>, topK: int, out: Hits, a: string, b: string, at: nat)
    requires FusionOf(lists, topK, out) && Dominates(lists, a, b)
    requires at < |out| && out[at].chunkId == b
    ensures exists i :: 0 <= i < at && out[i].chunkId == a && out[i].score > out[at].score
  {
    hide ScoreUpTo, AllIdsUpTo, IdsUpTo, Dominates;
    DominanceScores(lists, |lists|, a, b);
    ScoreBounds(lists, |lists|, a);
    ScoreBounds(lists, |lists|, b);
    assert out[at] in out;
    assert a in IdsOf(out);
    IdsAreMembers(out, |out|, a);
    var i :| 0 <= i < |out| && out[i].chunkId == a;
    assert out[i] in out;
    OrderedByScore(out, i, at);
  }

  lemma OrderedByScore(out: Hits, i: nat, j: nat)
    requires Descending(out, ScoreOf) && i < |out| && j < |out| && out[i].score > out[j].score
    ensures i < j
  {
    assert j <= i ==> ScoreOf(out[j]) >= ScoreOf(out[i]);
  }

  // ---------------------------------------------------------------- the two fusions agree

  /** The representatives are what their names say: the first and the last occurrence of the id. */
  lemma {:induction false} FirstAndLast(items: Hits, n: nat, id: string) returns (first: nat, last: nat)
    requires n <= |items| && id in IdsUpTo(items, n)
    ensures first < n && last < n && items[first] == FirstWith(items, n, id) && items[last] == LastWith(items, n, id)
    ensures items[first].chunkId == id && items[last].chunkId == id
    ensures forall j :: 0 <= j < n && items[j].chunkId == id ==> first <= j <= last
  {
    if id in IdsUpTo(items, n - 1) {
      first, last := FirstAndLast(items, n - 1, id);
    } else {
      first, last := n - 1, n - 1;
      RankIsFirst(items, n - 1, id);
    }
    if items[n - 1].chunkId == id { last := n - 1; }
  }

  /**
   * `MergeCandidatesRRF(d, s, k)` and `FuseMultipleResultsRRF([d, s], k)` agree on every score by
   * `FusionOf`. They agree on an id's payload, up to the layer label, exactly when its first and
   * last dense occurrences carry the same payload.
   */
  lemma SamePayload(dense: Hits, sparse: Hits, id: string)
    requires id in AllIds([dense, sparse])
    ensures MergedRow(dense, sparse)(id) == FusedRow([dense, sparse])(id).(layer := "rrf_hybrid") <==>
            (id in IdsOf(dense) ==> SameButScoreAndLayer(LastWith(dense, |dense|, id), FirstWith(dense, |dense|, id)))
  {
    var lists := [dense, sparse];
    PairOfLists(dense, sparse, id);
    assert AllIdsUpTo(lists, 1) == AllIdsUpTo(lists, 0) + IdsOf(lists[0]);
    assert FirstUpTo(lists, 2, id) ==
           if id in IdsOf(dense) then FirstWith(dense, |dense|, id) else FirstWith(sparse, |sparse|, id);
  }

  ghost predicate SameButScoreAndLayer(a: Candidate, b: Candidate) {
    a.(score := b.score, layer := b.layer) == b
  }

  /** In particular they agree whenever the dense ids are distinct. */
  lemma {:induction false} DistinctIdsSamePayload(items: Hits, n: nat, id: string)
    requires n <= |items| && NoRepeats(IdSeq(items)) && id in IdsUpTo(items, n)
    ensures LastWith(items, n, id) == FirstWith(items, n, id)
  {
    if items[n - 1].chunkId == id {
      RepeatMeansNotDistinct(items, n, id);
    } else {
      DistinctIdsSamePayload(items, n - 1, id);
    }
  }

  lemma RepeatMeansNotDistinct(items: Hits, n: nat, id: string)
    requires 0 < n <= |items| && items[n - 1].chunkId == id
    ensures id in IdsUpTo(items, n - 1) ==> !NoRepeats(IdSeq(items))
  {
    if id in IdsUpTo(items, n - 1) {
      IdsAreMembers(items, n - 1, id);
      var i :| 0 <= i < n - 1 && items[i].chunkId == id;
      assert IdSeq(items)[i] == IdSeq(items)[n - 1];
    }
  }

  /** With a repeated dense id the two really differ. */
  lemma RepeatedDenseIdDiffers()
    ensures var first, second := Candidate("a", "d", "s", 1.0, "f", "one", "", ""), Candidate("a", "d", "s", 0.5, "f", "two", "", "");
            var dense := [first, second];
            && MergedRow(dense, [])("a").text == "two"
            && FusedRow([dense, []])("a").text == "one"
  {
    var first, second := Candidate("a", "d", "s", 1.0, "f", "one", "", ""), Candidate("a", "d", "s", 0.5, "f", "two", "", "");
    var dense := [first, second];
    var lists := [dense, []];
    PairOfLists(dense, [], "a");
    assert "a" in IdsUpTo(dense, 1);
    assert FirstWith(dense, 2, "a") == FirstWith(dense, 1, "a") == first;
    assert AllIdsUpTo(lists, 1) == AllIdsUpTo(lists, 0) + IdsOf(lists[0]);
    assert FirstUpTo(lists, 2, "a") == FirstUpTo(lists, 1, "a") == FirstWith(dense, 2, "a");
  }

  /** No omitted id ties with the last returned one. */
  ghost predicate StrictAtCut(lists: seq<Hits>, out: Hits) {
    out != [] ==> forall id :: id in AllIds(lists) && id !in IdsOf(out) ==> FusedScore(lists, id) < out[|out| - 1].score
  }

  /** Without a tie at the cut, every fusion of the same lists returns the same ids. */
  lemma StrictCutSameIds(lists: seq<Hits>, topK: int, out: Hits, other: Hits)
    requires FusionOf(lists, topK, out) && FusionOf(lists, topK, other) && StrictAtCut(lists, out)
    ensures IdsOf(other) == IdsOf(out)
  {
    hide StrictAtCut, IdsUpTo, ScoreUpTo, AllIdsUpTo;
    forall id
      ensures id in IdsOf(other) <==> id in IdsOf(out)
    {
      if id in IdsOf(other) && id !in IdsOf(out) {
        DifferenceMeansTie(lists, topK, out, other, id);
      } else if id in IdsOf(out) && id !in IdsOf(other) {
        var i, j := ExchangedIds(lists, topK, other, out, id);
        DifferenceMeansTie(lists, topK, out, other, other[i].chunkId);
      }
    }
  }

  lemma DifferenceMeansTie(lists: seq<Hits>, topK: int, out: Hits, other: Hits, id: string)
    requires FusionOf(lists, topK, out) && FusionOf(lists, topK, other)
    requires id in IdsOf(other) && id !in IdsOf(out)
    ensures !StrictAtCut(lists, out)
  {
    hide ScoreUpTo, IdsUpTo, AllIdsUpTo;
    var i, j := ExchangedIds(lists, topK, out, other, id);
    assert out[i] in out && other[j] in other;
    assert other[j].score >= FusedScore(lists, out[i].chunkId);
    assert ScoreOf(out[|out| - 1]) <= ScoreOf(out[i]);
    assert FusedScore(lists, id) >= out[|out| - 1].score;
  }

  /** Equally long answers that differ: some id shown by `out` is missing from `other`. */
  lemma ExchangedIds(lists: seq<Hits>, topK: int, out: Hits, other: Hits, id: string) returns (i: nat, j: nat)
    requires FusionOf(lists, topK, out) && FusionOf(lists, topK, other)
    requires id in IdsOf(other) && id !in IdsOf(out)
    ensures i < |out| && out[i].chunkId in IdsOf(out) && out[i].chunkId !in IdsOf(other)
    ensures j < |other| && other[j].chunkId == id
  {
    hide ScoreUpTo, IdsUpTo, AllIdsUpTo;
    IdSeqDistinct(lists, topK, out);
    IdSeqDistinct(lists, topK, other);
    IdsAreMembers(other, |other|, id);
    j :| 0 <= j < |other| && other[j].chunkId == id;
    assert id in IdSet(other) by { IdsInSequence(other, id); }
    assert id !in IdSet(out) by { if id in IdSet(out) { MembersAreIds(out, id); } }
    var missing := MissingElement(IdSet(out), IdSet(other), id);
    i :| 0 <= i < |out| && IdSeq(out)[i] == missing;
    if missing in IdsOf(other) { IdsInSequence(other, missing); }
    MembersAreIds(out, missing);
  }

  lemma MembersAreIds(rows: Hits, id: string)
    requires id in IdSeq(rows)
    ensures id in IdsOf(rows)
  {
    var i :| 0 <= i < |rows| && IdSeq(rows)[i] == id;
    IdOfMember(rows, rows[i]);
  }

  lemma IdsInSequence(rows: Hits, id: string)
    requires id in IdsOf(rows)
    ensures id in IdSeq(rows)
  {
    IdsAreMembers(rows, |rows|, id);
    var i :| 0 <= i < |rows| && rows[i].chunkId == id;
    assert IdSeq(rows)[i] == id;
  }

  lemma MissingElement(shown: set<string>, rival: set<string>, id: string) returns (missing: string)
    requires |shown| == |rival| && id in rival && id !in shown
    ensures missing in shown && missing !in rival
  {
    if shown <= rival {
      SubsetCount(shown, rival - {id});
    }
    missing :| missing in shown && missing !in rival;
  }

  lemma {:induction false} SubsetCount(a: set<string>, b: set<string>)
    requires a <= b
    ensures |a| <= |b|
  {
    if a != {} {
      var x :| x in a;
      SubsetCount(a - {x}, b - {x});
    }
  }

  /** A row drawn from the rows of a fusion is the row of its id. */
  lemma DrawnRow(row: string -> Candidate, ids: set<string>, topK: int, out: Hits, c: Candidate)
    requires IsTop(multiset(RowsFor(row, ids)), ScoreOf, topK, out) && c in out
    requires forall id :: id in ids ==> row(id).chunkId == id
    ensures c.chunkId in ids && c == row(c.chunkId)
  {
    hide IsTop;
    TopMember(multiset(RowsFor(row, ids)), ScoreOf, topK, out, c);
    assert c in RowsFor(row, ids);
  }

  /** With a tie at the cut, the tied id's own row could have been returned instead of the last one. */
  lemma TieAtCutTwoAnswers(lists: seq<Hits>, row: string -> Candidate, topK: int, out: Hits, id: string)
    requires ScoresIds(lists, row, AllIds(lists))
    requires IsTop(multiset(RowsFor(row, AllIds(lists))), ScoreOf, topK, out) && out != []
    requires id in AllIds(lists) && id !in IdsOf(out) && FusedScore(lists, id) == out[|out| - 1].score
    ensures IsTop(multiset(RowsFor(row, AllIds(lists))), ScoreOf, topK, out[|out| - 1 := row(id)])
    ensures id in IdsOf(out[|out| - 1 := row(id)])
  {
    hide IsTop, IdsUpTo, FusedScore, AllIdsUpTo;
    var all, other := multiset(RowsFor(row, AllIds(lists))), out[|out| - 1 := row(id)];
    if row(id) in out { IdOfMember(out, row(id)); }
    assert row(id) in RowsFor(row, AllIds(lists));
    assert row(id) in all - multiset(out);
    SwapTied(all, ScoreOf, topK, out, row(id));
    assert other[|out| - 1] == row(id);
    IdOfMember(other, row(id));
  }

  /** The cut determines the returned ids, whatever the tie order, exactly when no omitted id ties with the last one. */
  lemma CutDeterminesIdsIff(lists: seq<Hits>, row: string -> Candidate, topK: int, out: Hits)
    requires ScoresIds(lists, row, AllIds(lists))
    requires IsTop(multiset(RowsFor(row, AllIds(lists))), ScoreOf, topK, out)
    ensures (forall other :: IsTop(multiset(RowsFor(row, AllIds(lists))), ScoreOf, topK, other) ==> IdsOf(other) == IdsOf(out))
        <==> StrictAtCut(lists, out)
  {
    hide IsTop, IdsUpTo, FusedScore, AllIdsUpTo, FusionOf, ScoresIds;
    TopRowsAreFusion(lists, row, topK, out);
    if StrictAtCut(lists, out) {
      forall other | IsTop(multiset(RowsFor(row, AllIds(lists))), ScoreOf, topK, other)
        ensures IdsOf(other) == IdsOf(out)
      {
        TopRowsAreFusion(lists, row, topK, other);
        StrictCutSameIds(lists, topK, out, other);
      }
    } else {
      var id := TiedId(lists, topK, out);
      TieAtCutTwoAnswers(lists, row, topK, out, id);
    }
  }

  lemma TiedId(lists: seq<Hits>, topK: int, out: Hits) returns (id: string)
    requires FusionOf(lists, topK, out) && !StrictAtCut(lists, out)
    ensures out != [] && id in AllIds(lists) && id !in IdsOf(out) && FusedScore(lists, id) == out[|out| - 1].score
  {
    hide IdsUpTo, FusedScore, AllIdsUpTo;
    id :| id in AllIds(lists) && id !in IdsOf(out) && FusedScore(lists, id) >= out[|out| - 1].score;
    assert out[|out| - 1] in out;
  }

  lemma FusedRowsScored(lists: seq<Hits>)
    ensures ScoresIds(lists, FusedRow(lists), AllIds(lists))
  {
    hide FusedScore, AllIdsUpTo;
  }

  /** The fusion of sub-query results returns the same ids for every map and tie order exactly without a tie at the cut. */
  lemma FusedIdsDeterminedIff(lists: seq<Hits>, topK: int, out: Hits)
    requires IsTop(multiset(FusedRows(lists)), ScoreOf, topK, out)
    ensures (forall other :: IsTop(multiset(FusedRows(lists)), ScoreOf, topK, other) ==> IdsOf(other) == IdsOf(out))
        <==> StrictAtCut(lists, out)
  {
    hide IsTop, IdsUpTo, FusedScore, AllIdsUpTo, StrictAtCut, ScoresIds;
    FusedRowsScored(lists);
    CutDeterminesIdsIff(lists, FusedRow(lists), topK, out);
  }

  /** The same for the dense and sparse merge. */
  lemma MergedIdsDeterminedIff(dense: Hits, sparse: Hits, topK: int, out: Hits)
    requires IsTop(multiset(MergedRows(dense, sparse)), ScoreOf, topK, out)
    ensures (forall other :: IsTop(multiset(MergedRows(dense, sparse)), ScoreOf, topK, other) ==> IdsOf(other) == IdsOf(out))
        <==> StrictAtCut([dense, sparse], out)
  {
    hide IsTop, IdsUpTo, FusedScore, AllIdsUpTo, StrictAtCut, ScoresIds;
    MergedRowScores(dense, sparse);
    CutDeterminesIdsIff([dense, sparse], MergedRow(dense, sparse), topK, out);
  }

  // ---------------------------------------------------------------- fused rows show retrieved candidates

  lemma {:induction false} FirstUpToOrigin(lists: seq<Hits>, n: nat, id: string) returns (l: nat, p: nat)
    requires n <= |lists| && id in AllIdsUpTo(lists, n)
    ensures l < n && p < |lists[l]| && lists[l][p] == FirstUpTo(lists, n, id)
    ensures forall k :: 0 <= k < l ==> id !in IdsOf(lists[k])
    ensures forall i :: 0 <= i < p ==> lists[l][i].chunkId != id
  {
    hide IdsUpTo;
    if id in AllIdsUpTo(lists, n - 1) {
      l, p := FirstUpToOrigin(lists, n - 1, id);
    } else {
      l := n - 1;
      FirstListWith(lists, n - 1, id);
      p := FirstWithPosition(lists[l], |lists[l]|, id);
    }
  }

  /**
   * Every row of the dense and sparse merge is, up to score and layer, the last dense candidate with its
   * id or, when dense has none, the first sparse one.
   */
  lemma MergedRowOrigin(dense: Hits, sparse: Hits, topK: int, out: Hits, c: Candidate) returns (p: nat)
    requires IsTop(multiset(MergedRows(dense, sparse)), ScoreOf, topK, out) && c in out
    ensures c.layer == "rrf_hybrid"
    ensures c.chunkId in IdsOf(dense) ==>
              && p < |dense| && SameButScoreAndLayer(dense[p], c)
              && forall i :: p < i < |dense| ==> dense[i].chunkId != c.chunkId
    ensures c.chunkId !in IdsOf(dense) ==>
              && p < |sparse| && SameButScoreAndLayer(sparse[p], c)
              && forall i :: 0 <= i < p ==> sparse[i].chunkId != c.chunkId
  {
    hide IsTop, FusedScore, IdsUpTo;
    DrawnRow(MergedRow(dense, sparse), IdsOf(dense) + IdsOf(sparse), topK, out, c);
    var first: nat, last: nat;
    if c.chunkId in IdsOf(dense) {
      first, last := FirstAndLast(dense, |dense|, c.chunkId);
      p := last;
    } else {
      p := FirstWithPosition(sparse, |sparse|, c.chunkId);
    }
  }

  lemma {:induction false} FirstListWith(lists: seq<Hits>, n: nat, id: string)
    requires n <= |lists| && id !in AllIdsUpTo(lists, n)
    ensures forall k :: 0 <= k < n ==> id !in IdsOf(lists[k])
  {
    if n > 0 { FirstListWith(lists, n - 1, id); }
  }

  lemma FirstWithPosition(items: Hits, n: nat, id: string) returns (p: nat)
    requires n <= |items| && id in IdsUpTo(items, n)
    ensures p < n && items[p] == FirstWith(items, n, id) && forall i :: 0 <= i < p ==> items[i].chunkId != id
  {
    var last: nat;
    p, last := FirstAndLast(items, n, id);
  }

  /**
   * Every row of a fusion is, up to score and layer, a candidate of one of the lists: the first with its
   * id in the first list that holds it.
   */
  lemma FusedRowOrigin(lists: seq<Hits>, topK: int, out: Hits, c: Candidate) returns (l: nat, p: nat)
    requires IsTop(multiset(FusedRows(lists)), ScoreOf, topK, out) && c in out
    ensures l < |lists| && p < |lists[l]| && SameButScoreAndLayer(lists[l][p], c) && c.layer == "rrf_multi"
    ensures forall k :: 0 <= k < l ==> c.chunkId !in IdsOf(lists[k])
    ensures forall i :: 0 <= i < p ==> lists[l][i].chunkId != c.chunkId
  {
    hide IsTop, FusedScore, AllIdsUpTo, FirstUpTo, IdsUpTo;
    DrawnRow(FusedRow(lists), AllIds(lists), topK, out, c);
    l, p := FirstUpToOrigin(lists, |lists|, c.chunkId);
  }
}
