/**
 * Sorting by descending score and truncation.
 *
 * Go's `sort.Slice` is not stable and the rows often come from a map, so ties may come out in
 * any order. `IsTop` describes every outcome: callers of `SortByScore` learn nothing else.
 */
module Ranking {

  ghost predicate Descending<T>(rows: seq<T>, score: T -> real) {
    forall i, j :: 0 <= i < j < |rows| ==> score(rows[i]) >= score(rows[j])
  }

  /** out holds the rows of `all`, best first. */
  ghost predicate Ranked<T>(all: multiset<T>, score: T -> real, out: seq<T>) {
    multiset(out) == all && Descending(out, score)
  }

  /** How many rows are left after the cut `if topK > 0 && len(rows) > topK`. */
  function Limit(topK: int, n: nat): nat {
    if 0 < topK < n then topK else n
  }

  function Cut<T>(rows: seq<T>, topK: int): seq<T> {
    rows[..Limit(topK, |rows|)]
  }

  /** out is a best-first choice of the topK best rows of `all`; every tie order is allowed. */
  ghost predicate IsTop<T(!new)>(all: multiset<T>, score: T -> real, topK: int, out: seq<T>) {
    && multiset(out) <= all
    && |out| == Limit(topK, |all|)
    && Descending(out, score)
    && forall x, y :: x in out && y in all - multiset(out) ==> score(x) >= score(y)
  }

  lemma DescendingAcross<T>(rows: seq<T>, score: T -> real, n: nat, x: T, y: T)
    requires Descending(rows, score) && n <= |rows| && x in rows[..n] && y in rows[n..]
    ensures score(x) >= score(y)
  {
    var i :| 0 <= i < n && rows[..n][i] == x;
    var j :| 0 <= j < |rows| - n && rows[n..][j] == y;
    assert rows[i] == x && rows[n + j] == y;
  }

  lemma LeftOver<T>(rows: seq<T>, n: nat)
    requires n <= |rows|
    ensures multiset(rows) - multiset(rows[..n]) == multiset(rows[n..])
    ensures multiset(rows[..n]) <= multiset(rows)
  {
    assert rows == rows[..n] + rows[n..];
  }

  lemma CutIsTop<T(!new)>(all: multiset<T>, score: T -> real, topK: int, full: seq<T>)
    requires Ranked(all, score, full)
    ensures IsTop(all, score, topK, Cut(full, topK))
  {
    var n := Limit(topK, |full|);
    LeftOver(full, n);
    forall x, y | x in full[..n] && y in all - multiset(full[..n])
      ensures score(x) >= score(y)
    {
      DescendingAcross(full, score, n, x, y);
    }
  }

  ghost predicate NoRepeats<T>(rows: seq<T>) {
    forall i, j :: 0 <= i < j < |rows| ==> rows[i] != rows[j]
  }

  lemma RemoveOne<T>(rows: seq<T>, at: nat)
    requires at < |rows|
    ensures multiset(rows[..at] + rows[at + 1..]) == multiset(rows) - multiset{rows[at]}
  {
    assert rows == rows[..at] + [rows[at]] + rows[at + 1..];
    assert multiset(rows[..at] + rows[at + 1..]) + multiset{rows[at]} == multiset(rows);
  }

  /** Where the last row of `part` occurs in `whole`; without both, the rest still is part of the rest. */
  lemma MatchLast<T>(part: seq<T>, whole: seq<T>) returns (at: nat)
    requires multiset(part) <= multiset(whole) && part != []
    ensures at < |whole| && whole[at] == part[|part| - 1]
    ensures multiset(part[..|part| - 1]) == multiset(part) - multiset{part[|part| - 1]}
    ensures multiset(whole[..at] + whole[at + 1..]) == multiset(whole) - multiset{part[|part| - 1]}
  {
    var n := |part| - 1;
    assert part == part[..n] + [part[n]];
    assert part[n] in multiset(whole);
    at :| 0 <= at < |whole| && whole[at] == part[n];
    RemoveOne(whole, at);
    RemoveOne(part, n);
    assert part[..n] + part[n + 1..] == part[..n];
  }

  lemma {:induction false} DistinctAsSet<T>(rows: seq<T>)
    requires NoRepeats(rows)
    ensures multiset(rows) == multiset(set r | r in rows)
  {
    if rows == [] {
      assert (set r | r in rows) == {};
    } else {
      var first, rest := rows[0], rows[1..];
      DistinctAsSet(rest);
      assert first !in rest;
      assert rows == [first] + rest;
      assert (set r | r in rows) == (set r | r in rest) + {first};
    }
  }

  /** Rows drawn from a set never repeat. */
  lemma DrawnFromSet<T>(rows: set<T>, out: seq<T>)
    requires multiset(out) <= multiset(rows)
    ensures forall x :: x in out ==> x in rows
    ensures NoRepeats(out)
  {
    forall x | x in out
      ensures x in rows
    {
      assert x in multiset(out);
    }
    forall i, j | 0 <= i < j < |out|
      ensures out[i] != out[j]
    {
      var left, right := out[..j], out[j..];
      assert out == left + right;
      assert left[i] == out[i] && right[0] == out[j];
      assert out[i] in multiset(left) && out[j] in multiset(right);
      assert multiset(out)[out[i]] == multiset(left)[out[i]] + multiset(right)[out[i]] <= 1;
    }
  }

  /** Truncations compose: the best m of the best k are the best m of everything. */
  lemma TopOfTop<T(!new)>(all: multiset<T>, score: T -> real, k: int, mid: seq<T>, m: int, out: seq<T>)
    requires IsTop(all, score, k, mid) && IsTop(multiset(mid), score, m, out)
    requires 0 < m <= k
    ensures IsTop(all, score, m, out)
  {
    MemberOfSubset(multiset(mid), out);
    forall x, y | x in out && y in all - multiset(out)
      ensures score(x) >= score(y)
    {
      DifferenceSplits(all, multiset(mid), multiset(out), y);
    }
  }

  lemma MemberOfSubset<T>(all: multiset<T>, out: seq<T>)
    requires multiset(out) <= all
    ensures forall x :: x in out ==> x in all
  {
    forall x | x in out
      ensures x in all
    {
      assert x in multiset(out);
    }
  }

  /** Everything comes back when the limit is not positive or not exceeded, else exactly topK rows. */
  lemma TopCount<T(!new)>(all: multiset<T>, score: T -> real, topK: int, out: seq<T>)
    requires IsTop(all, score, topK, out)
    ensures if topK <= 0 || |all| <= topK then multiset(out) == all else |out| == topK
  {
    if topK <= 0 || |all| <= topK {
      assert |all - multiset(out)| == 0;
      assert all == multiset(out) + (all - multiset(out));
    }
  }

  lemma TopMember<T(!new)>(all: multiset<T>, score: T -> real, topK: int, out: seq<T>, r: T)
    requires IsTop(all, score, topK, out) && r in out
    ensures r in all
  {
    MemberOfSubset(all, out);
  }

  /** A left-out row that ties with the last returned one could have been returned in its place. */
  lemma SwapTied<T(!new)>(all: multiset<T>, score: T -> real, topK: int, out: seq<T>, y: T)
    requires IsTop(all, score, topK, out) && out != []
    requires y in all - multiset(out) && score(y) == score(out[|out| - 1])
    ensures IsTop(all, score, topK, out[|out| - 1 := y])
  {
    var other := out[|out| - 1 := y];
    ReplacedLast(out, y);
    ReplacedStaysSorted(out, score, y);
    assert multiset(other) <= all;
    forall a, b | a in other && b in all - multiset(other)
      ensures score(a) >= score(b)
    {
      SwappedStillBeats(all, score, topK, out, y, a, b);
    }
  }

  lemma ReplacedLast<T>(out: seq<T>, y: T)
    requires out != []
    ensures multiset(out[|out| - 1 := y]) == multiset(out) - multiset{out[|out| - 1]} + multiset{y}
  {
    var n := |out| - 1;
    assert out == out[..n] + [out[n]] && out[n := y] == out[..n] + [y];
  }

  lemma ReplacedStaysSorted<T>(out: seq<T>, score: T -> real, y: T)
    requires out != [] && Descending(out, score) && score(y) == score(out[|out| - 1])
    ensures Descending(out[|out| - 1 := y], score)
  {
  }

  lemma SwappedStillBeats<T(!new)>(all: multiset<T>, score: T -> real, topK: int, out: seq<T>, y: T, a: T, b: T)
    requires IsTop(all, score, topK, out) && out != []
    requires score(y) == score(out[|out| - 1])
    requires multiset(out[|out| - 1 := y]) == multiset(out) - multiset{out[|out| - 1]} + multiset{y}
    requires a in out[|out| - 1 := y] && b in all - multiset(out[|out| - 1 := y])
    ensures score(a) >= score(b)
  {
    var n := |out| - 1;
    var last := out[n];
    assert score(a) >= score(last) by {
      var i :| 0 <= i <= n && out[n := y][i] == a;
      assert i < n ==> score(out[i]) >= score(out[n]);
    }
    if b in all - multiset(out) {
      assert last in out;
    } else {
      assert b == last;
    }
  }

  lemma DifferenceSplits<T>(all: multiset<T>, mid: multiset<T>, out: multiset<T>, y: T)
    requires out <= mid && mid <= all && y in all - out
    ensures y in all - mid || y in mid - out
  {
  }

  function Inserted<T>(sorted: seq<T>, at: nat, x: T): (out: seq<T>)
    requires at <= |sorted|
    ensures multiset(out) == multiset(sorted) + multiset{x}
    ensures |out| == |sorted| + 1
    ensures forall i :: 0 <= i < |out| ==> out[i] == if i < at then sorted[i] else if i == at then x else sorted[i - 1]
  {
    assert sorted == sorted[..at] + sorted[at..];
    sorted[..at] + [x] + sorted[at..]
  }

  lemma InsertedInOrder<T>(score: T -> real, sorted: seq<T>, at: nat, x: T, i: nat, j: nat)
    requires Descending(sorted, score) && at <= |sorted| && i < j <= |sorted|
    requires at > 0 ==> score(sorted[at - 1]) >= score(x)
    requires at < |sorted| ==> score(sorted[at]) < score(x)
    ensures score(Inserted(sorted, at, x)[i]) >= score(Inserted(sorted, at, x)[j])
  {
    if i == at {
      assert score(sorted[at]) >= score(sorted[j - 1]);
    } else if j == at {
      assert score(sorted[i]) >= score(sorted[at - 1]);
    }
  }

  lemma InsertKeepsRanked<T>(all: multiset<T>, score: T -> real, sorted: seq<T>, at: nat, x: T)
    requires Ranked(all, score, sorted) && at <= |sorted|
    requires at > 0 ==> score(sorted[at - 1]) >= score(x)
    requires at < |sorted| ==> score(sorted[at]) < score(x)
    ensures Ranked(all + multiset{x}, score, Inserted(sorted, at, x))
  {
    var out := Inserted(sorted, at, x);
    forall i, j | 0 <= i < j < |out|
      ensures score(out[i]) >= score(out[j])
    {
      InsertedInOrder(score, sorted, at, x, i, j);
    }
  }

  lemma InsertionPoint<T>(score: T -> real, sorted: seq<T>, x: T) returns (at: nat)
    ensures at <= |sorted|
    ensures at > 0 ==> score(sorted[at - 1]) >= score(x)
    ensures at < |sorted| ==> score(sorted[at]) < score(x)
  {
    at := |sorted|;
    while at > 0 && score(sorted[at - 1]) < score(x)
      invariant at <= |sorted|
      invariant at < |sorted| ==> score(sorted[at]) < score(x)
    {
      at := at - 1;
    }
  }

  lemma {:induction false} RankedExists<T>(all: multiset<T>, score: T -> real) returns (sorted: seq<T>)
    ensures Ranked(all, score, sorted)
    decreases |all|
  {
    if |all| == 0 {
      sorted := [];
    } else {
      var x :| x in all;
      var rest := RankedExists(all - multiset{x}, score);
      var at := InsertionPoint(score, rest, x);
      InsertKeepsRanked(all - multiset{x}, score, rest, at, x);
      assert all - multiset{x} + multiset{x} == all;
      sorted := Inserted(rest, at, x);
    }
  }

  /** Some best-first choice always exists. */
  lemma TopExists<T(!new)>(all: multiset<T>, score: T -> real, topK: int) returns (out: seq<T>)
    ensures IsTop(all, score, topK, out)
  {
    var sorted := RankedExists(all, score);
    CutIsTop(all, score, topK, sorted);
    out := Cut(sorted, topK);
  }

  lemma NothingRanked<T>(score: T -> real)
    ensures Ranked(multiset([]), score, [])
  {
  }

  /** Move x past the rows that score lower. */
  method InsertRow<T(!new)>(ghost before: seq<T>, score: T -> real, sorted: seq<T>, x: T) returns (next: seq<T>)
    requires Ranked(multiset(before), score, sorted)
    ensures Ranked(multiset(before + [x]), score, next)
  {
    hide Ranked;
    var at := |sorted|;
    while at > 0 && score(sorted[at - 1]) < score(x)
      invariant 0 <= at <= |sorted|
      invariant at < |sorted| ==> score(sorted[at]) < score(x)
    {
      at := at - 1;
    }
    InsertKeepsRanked(multiset(before), score, sorted, at, x);
    next := Inserted(sorted, at, x);
  }

  /** Stand-in for `sort.Slice(rows, score descending)`: insertion into a sorted copy. */
  method SortByScore<T(!new)>(rows: seq<T>, score: T -> real) returns (sorted: seq<T>)
    ensures Ranked(multiset(rows), score, sorted)
  {
    hide Ranked;
    sorted := [];
    NothingRanked(score);
    for i := 0 to |rows|
      invariant Ranked(multiset(rows[..i]), score, sorted)
    {
      assert rows[..i + 1] == rows[..i] + [rows[i]];
      sorted := InsertRow(rows[..i], score, sorted, rows[i]);
    }
    assert rows[..|rows|] == rows;
  }

  /** Sort, then truncate. */
  method TopByScore<T(!new)>(rows: seq<T>, score: T -> real, topK: int) returns (top: seq<T>)
    ensures IsTop(multiset(rows), score, topK, top)
  {
    var sorted := SortByScore(rows, score);
    CutIsTop(multiset(rows), score, topK, sorted);
    top := Cut(sorted, topK);
  }
}
