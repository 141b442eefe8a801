/** Laws of BM25 scoring. */
module Bm25Laws {
  import opened Arithmetic
  import opened Ranking
  import opened Bm25

  // ---------------------------------------------------------------- inverse document frequency

  lemma IdfArgument(count: nat, df: nat)
    requires 1 <= df <= count
    ensures df as real + 0.5 > 0.0
    ensures 1.0 + (count as real - df as real + 0.5) / (df as real + 0.5) == (count as real + 1.0) / (df as real + 0.5)
    ensures 1.0 + (count as real - df as real + 0.5) / (df as real + 0.5) > 1.0
  {
    var d := df as real + 0.5;
    OnePlusQuotient(count as real - df as real + 0.5, d);
  }

  lemma OnePlusQuotient(n: real, d: real)
    requires d > 0.0
    ensures 1.0 + n / d == (d + n) / d
  {
    assert n / d * d == n;
    Quotient(1.0 + n / d, d, d + n);
  }

  /** An indexed term occurs in 1 to N documents, so its inverse document frequency is positive. */
  lemma IdfPositive(ln: real -> real, count: nat, df: nat)
    requires LogLike(ln) && 1 <= df <= count
    ensures Idf(ln, count, df) > 0.0
  {
    IdfArgument(count, df);
    var x := 1.0 + (count as real - df as real + 0.5) / (df as real + 0.5);
    assert ln(1.0) < ln(x);
  }

  /** Rarer terms weigh strictly more. */
  lemma RarerWeighsMore(ln: real -> real, count: nat, rare: nat, common: nat)
    requires LogLike(ln) && 1 <= rare < common <= count
    ensures Idf(ln, count, rare) > Idf(ln, count, common)
  {
    IdfArgument(count, rare);
    IdfArgument(count, common);
    QuotientDecreases(count as real + 1.0, rare as real + 0.5, common as real + 0.5);
    var x, y := (count as real + 1.0) / (common as real + 0.5), (count as real + 1.0) / (rare as real + 0.5);
    assert 0.0 < x < y;
    assert ln(x) < ln(y);
  }

  lemma QuotientDecreases(n: real, d: real, e: real)
    requires n > 0.0 && 0.0 < d < e
    ensures 0.0 < n / e < n / d
  {
    assert n / d - n / e == n * (e - d) / (d * e);
  }

  // ---------------------------------------------------------------- exactness of matching

  lemma WeightPositive(freq: nat, dl: real, avgdl: real)
    requires freq > 0 && dl > 0.0 && avgdl > 0.0
    ensures Weight(freq, dl, avgdl) > 0.0
  {
    WeightDefined(freq, dl, avgdl);
  }

  lemma FrequencyPositive(tokens: seq<string>, t: string)
    requires t in tokens
    ensures Frequency(tokens, t) > 0
  {
    assert t in multiset(tokens);
  }

  lemma TermPositive(docs: seq<Doc>, ln: real -> real, d: Doc, t: string)
    requires LogLike(ln) && d in docs
    ensures if t in d.tokens then DocTerm(docs, ln, d, t) > 0.0 else DocTerm(docs, ln, d, t) == 0.0
  {
    hide Weight, Idf, AverageLength, LogLike;
    if t in d.tokens {
      var i :| 0 <= i < |docs| && docs[i] == d;
      DocFrequencyPositive(docs, |docs|, i, t);
      IdfPositive(ln, |docs|, DocFrequency(docs, |docs|, t));
      FrequencyPositive(d.tokens, t);
      WeightPositive(Frequency(d.tokens, t), Positive(|d.tokens| as real), Positive(AverageLength(docs)));
    }
  }

  /** The score is never negative, and positive exactly when the query and the document share a token. */
  lemma {:induction false} PositiveIffShared(docs: seq<Doc>, ln: real -> real, d: Doc, query: seq<string>, n: nat)
    requires LogLike(ln) && d in docs && n <= |query|
    ensures DocScore(docs, ln, d, query, n) >= 0.0
    ensures DocScore(docs, ln, d, query, n) > 0.0 <==> exists i :: 0 <= i < n && query[i] in d.tokens
  {
    hide LogLike, DocTerm;
    if n > 0 {
      PositiveIffShared(docs, ln, d, query, n - 1);
      TermPositive(docs, ln, d, query[n - 1]);
    }
  }

  // ---------------------------------------------------------------- the simple form after token deduplication

  /** The summed inverse document frequencies of the query tokens the document holds. */
  function MatchedIdf(docs: seq<Doc>, ln: real -> real, d: Doc, query: seq<string>, n: nat): real
    requires n <= |query|
  {
    if n == 0 then 0.0
    else MatchedIdf(docs, ln, d, query, n - 1)
         + if query[n - 1] in d.tokens then Idf(ln, |docs|, DocFrequency(docs, |docs|, query[n - 1])) else 0.0
  }

  /** (k1 + 1) / (1 + k1(1 − b + b·dl/avgdl)): the factor all terms of one document share. */
  function LengthFactor(docs: seq<Doc>, d: Doc): real
    requires d in docs
  {
    Weight(1, Positive(|d.tokens| as real), Positive(AverageLength(docs)))
  }

  lemma DistinctFrequency(tokens: seq<string>, t: string)
    requires NoRepeats(tokens) && t in tokens
    ensures Frequency(tokens, t) == 1
  {
    var i :| 0 <= i < |tokens| && tokens[i] == t;
    var left, right := tokens[..i], tokens[i + 1..];
    assert tokens == left + [t] + right;
    assert t !in left && t !in right;
    assert multiset(tokens) == multiset(left) + multiset{t} + multiset(right);
  }

  /** With tokens deduplicated, as the tokenizer leaves them, term frequency plays no part. */
  lemma {:induction false} SimpleForm(docs: seq<Doc>, ln: real -> real, d: Doc, query: seq<string>, n: nat)
    requires d in docs && n <= |query| && NoRepeats(d.tokens)
    ensures DocScore(docs, ln, d, query, n) == MatchedIdf(docs, ln, d, query, n) * LengthFactor(docs, d)
  {
    hide Weight, Idf, AverageLength, NoRepeats;
    var w := LengthFactor(docs, d);
    if n > 0 {
      SimpleForm(docs, ln, d, query, n - 1);
      if query[n - 1] in d.tokens {
        DistinctFrequency(d.tokens, query[n - 1]);
        Distribute(w, MatchedIdf(docs, ln, d, query, n - 1), Idf(ln, |docs|, DocFrequency(docs, |docs|, query[n - 1])));
      }
    }
  }

  lemma {:induction false} MatchedIdfNonNegative(docs: seq<Doc>, ln: real -> real, d: Doc, query: seq<string>, n: nat)
    requires LogLike(ln) && d in docs && n <= |query|
    ensures MatchedIdf(docs, ln, d, query, n) >= 0.0
  {
    hide Idf, LogLike;
    if n > 0 {
      MatchedIdfNonNegative(docs, ln, d, query, n - 1);
      if query[n - 1] in d.tokens {
        var i :| 0 <= i < |docs| && docs[i] == d;
        DocFrequencyPositive(docs, |docs|, i, query[n - 1]);
        IdfPositive(ln, |docs|, DocFrequency(docs, |docs|, query[n - 1]));
      }
    }
  }

  lemma FactorBounds(dl: real, avgdl: real)
    requires dl > 0.0 && avgdl > 0.0
    ensures 0.0 < Weight(1, dl, avgdl) < (K1 + 1.0) / (1.0 + K1 * (1.0 - B))
  {
    WeightDefined(1, dl, avgdl);
    QuotientDecreases(K1 + 1.0, 1.0 + K1 * (1.0 - B), 1.0 + K1 * (1.0 - B + B * (dl / avgdl)));
  }

  /** A matching document scores less than Σidf · (k1 + 1)/(1 + k1(1 − b)), the score of an infinitely short one. */
  lemma ScoreBelowShortestDocument(docs: seq<Doc>, ln: real -> real, d: Doc, query: seq<string>)
    requires LogLike(ln) && d in docs && NoRepeats(d.tokens)
    requires exists i :: 0 <= i < |query| && query[i] in d.tokens
    ensures DocScore(docs, ln, d, query, |query|)
          < MatchedIdf(docs, ln, d, query, |query|) * ((K1 + 1.0) / (1.0 + K1 * (1.0 - B)))
  {
    hide Weight, LogLike, DocScore, MatchedIdf, NoRepeats, AverageLength;
    var matched := MatchedIdf(docs, ln, d, query, |query|);
    PositiveIffShared(docs, ln, d, query, |query|);
    SimpleForm(docs, ln, d, query, |query|);
    MatchedIdfNonNegative(docs, ln, d, query, |query|);
    FactorBounds(Positive(|d.tokens| as real), Positive(AverageLength(docs)));
    var w, bound := LengthFactor(docs, d), (K1 + 1.0) / (1.0 + K1 * (1.0 - B));
    assert matched * w > 0.0;
    StrictFactor(matched, w, bound);
    assert DocScore(docs, ln, d, query, |query|) == matched * w < matched * bound;
  }

  lemma WeightFallsWithLength(dl: real, longer: real, avgdl: real)
    requires 0.0 < dl < longer && avgdl > 0.0
    ensures Weight(1, longer, avgdl) < Weight(1, dl, avgdl)
  {
    WeightDefined(1, dl, avgdl);
    WeightDefined(1, longer, avgdl);
    RatioGrows(dl, longer, avgdl);
    QuotientDecreases(K1 + 1.0, 1.0 + K1 * (1.0 - B + B * (dl / avgdl)), 1.0 + K1 * (1.0 - B + B * (longer / avgdl)));
  }

  lemma RatioGrows(a: real, b: real, c: real)
    requires a < b && c > 0.0
    ensures a / c < b / c
  {
    assert b / c - a / c == (b - a) / c;
  }

  /** Of two documents matching with the same total weight, the longer one scores strictly less. */
  lemma LongerScoresLess(docs: seq<Doc>, ln: real -> real, d: Doc, e: Doc, query: seq<string>)
    requires LogLike(ln) && d in docs && e in docs && NoRepeats(d.tokens) && NoRepeats(e.tokens)
    requires |d.tokens| < |e.tokens|
    requires MatchedIdf(docs, ln, d, query, |query|) == MatchedIdf(docs, ln, e, query, |query|)
    requires exists i :: 0 <= i < |query| && query[i] in d.tokens
    ensures DocScore(docs, ln, e, query, |query|) < DocScore(docs, ln, d, query, |query|)
  {
    hide Weight, LogLike, DocScore, MatchedIdf, NoRepeats, AverageLength;
    var matched := MatchedIdf(docs, ln, d, query, |query|);
    PositiveIffShared(docs, ln, d, query, |query|);
    SimpleForm(docs, ln, d, query, |query|);
    SimpleForm(docs, ln, e, query, |query|);
    MatchedIdfNonNegative(docs, ln, d, query, |query|);
    assert |d.tokens| > 0;
    WeightFallsWithLength(|d.tokens| as real, |e.tokens| as real, Positive(AverageLength(docs)));
    StrictFactor(matched, LengthFactor(docs, e), LengthFactor(docs, d));
  }

  lemma StrictFactor(m: real, v: real, w: real)
    requires m >= 0.0 && v < w && (m * v > 0.0 || m * w > 0.0)
    ensures m * v < m * w
  {
  }

  // ---------------------------------------------------------------- the formula, from the documents alone

  /** The positions of the documents that hold the term. */
  ghost function Holders(docs: seq<Doc>, n: nat, t: string): set<nat>
    requires n <= |docs|
  {
    set i: nat | i < n && t in docs[i].tokens
  }

  lemma {:induction false} FrequencyCountsHolders(docs: seq<Doc>, n: nat, t: string)
    requires n <= |docs|
    ensures DocFrequency(docs, n, t) == |Holders(docs, n, t)|
  {
    if n == 0 {
      assert Holders(docs, 0, t) == {};
    } else {
      FrequencyCountsHolders(docs, n - 1, t);
      if t in docs[n - 1].tokens {
        assert Holders(docs, n, t) == Holders(docs, n - 1, t) + {n - 1};
      } else {
        assert Holders(docs, n, t) == Holders(docs, n - 1, t);
      }
    }
  }

  /** Every place of every token list. */
  ghost function Places(docs: seq<Doc>, n: nat): set<(nat, nat)>
    requires n <= |docs|
  {
    set i: nat, k: nat | i < n && k < |docs[i].tokens| :: (i, k)
  }

  ghost function PlacesIn(i: nat, length: nat): set<(nat, nat)> {
    set k: nat | k < length :: (i, k)
  }

  lemma {:induction false} PlacesInCount(i: nat, length: nat)
    ensures |PlacesIn(i, length)| == length
  {
    if length == 0 {
      assert PlacesIn(i, 0) == {};
    } else {
      PlacesInCount(i, length - 1);
      assert PlacesIn(i, length) == PlacesIn(i, length - 1) + {(i, length - 1)};
    }
  }

  lemma {:induction false} LengthCountsPlaces(docs: seq<Doc>, n: nat)
    requires n <= |docs|
    ensures TotalLength(docs, n) == |Places(docs, n)|
  {
    if n == 0 {
      assert Places(docs, 0) == {};
    } else {
      LengthCountsPlaces(docs, n - 1);
      PlacesInCount(n - 1, |docs[n - 1].tokens|);
      assert Places(docs, n) == Places(docs, n - 1) + PlacesIn(n - 1, |docs[n - 1].tokens|);
      assert Places(docs, n - 1) !! PlacesIn(n - 1, |docs[n - 1].tokens|);
    }
  }

  /** How rare a term is: ln((N + 1)/(df + 0.5)), df the number of documents holding it. */
  ghost function Rarity(docs: seq<Doc>, ln: real -> real, t: string): real {
    ln((|docs| as real + 1.0) / (|Holders(docs, |docs|, t)| as real + 0.5))
  }

  /** The summed rarities of the first n query tokens that the document holds. */
  ghost function MatchedRarity(docs: seq<Doc>, ln: real -> real, d: Doc, query: seq<string>, n: nat): real
    requires n <= |query|
  {
    if n == 0 then 0.0
    else MatchedRarity(docs, ln, d, query, n - 1) + if query[n - 1] in d.tokens then Rarity(docs, ln, query[n - 1]) else 0.0
  }

  /** 1 + 1.2·(0.25 + 0.75·length/average length), with f in place of 1 for a token occurring f times. */
  ghost function Damping(docs: seq<Doc>, d: Doc, f: nat): real
    requires |Places(docs, |docs|)| > 0
  {
    f as real + 1.2 * (0.25 + 0.75 * (|d.tokens| as real * |docs| as real / |Places(docs, |docs|)| as real))
  }

  lemma IdfIsRarity(docs: seq<Doc>, ln: real -> real, d: Doc, t: string)
    requires d in docs && t in d.tokens
    ensures Idf(ln, |docs|, DocFrequency(docs, |docs|, t)) == Rarity(docs, ln, t)
  {
    hide Holders;
    var i :| 0 <= i < |docs| && docs[i] == d;
    DocFrequencyPositive(docs, |docs|, i, t);
    FrequencyCountsHolders(docs, |docs|, t);
    IdfArgument(|docs|, DocFrequency(docs, |docs|, t));
  }

  lemma {:induction false} LengthAtLeast(docs: seq<Doc>, n: nat, i: nat)
    requires i < n <= |docs|
    ensures TotalLength(docs, n) >= |docs[i].tokens|
  {
    if i < n - 1 { LengthAtLeast(docs, n - 1, i); }
  }

  lemma RelativeLength(dl: real, total: real, count: real)
    requires total > 0.0 && count > 0.0
    ensures total / count > 0.0 && dl / (total / count) == dl * count / total
  {
    assert total / count * count == total;
    var q := dl * count / total;
    assert q * total == dl * count;
    assert (q * (total / count)) * count == q * (total / count * count);
    Cancel(count, q * (total / count), dl);
    Quotient(q, total / count, dl);
  }

  lemma PositiveLength(docs: seq<Doc>, d: Doc)
    requires d in docs && d.tokens != []
    ensures |Places(docs, |docs|)| > 0
    ensures Positive(AverageLength(docs)) == |Places(docs, |docs|)| as real / |docs| as real > 0.0
  {
    hide Places;
    var i :| 0 <= i < |docs| && docs[i] == d;
    LengthAtLeast(docs, |docs|, i);
    LengthCountsPlaces(docs, |docs|);
    RelativeLength(1.0, TotalLength(docs, |docs|) as real, |docs| as real);
  }

  lemma WeightTimesDamping(freq: nat, dl: real, avgdl: real, ratio: real)
    requires freq > 0 && dl > 0.0 && avgdl > 0.0 && dl / avgdl == ratio
    ensures Weight(freq, dl, avgdl) * (freq as real + 1.2 * (0.25 + 0.75 * ratio)) == freq as real * 2.2
  {
    WeightDefined(freq, dl, avgdl);
    var n, m := freq as real * (K1 + 1.0), freq as real + K1 * (1.0 - B + B * (dl / avgdl));
    assert n / m * m == n;
  }

  /** What a term adds: its rarity · f · 2.2 / (f + 1.2·(0.25 + 0.75·relative length)), for f occurrences. */
  lemma TermFormula(docs: seq<Doc>, ln: real -> real, d: Doc, t: string)
    requires d in docs && t in d.tokens
    ensures var f := multiset(d.tokens)[t];
            && |Places(docs, |docs|)| > 0
            && DocTerm(docs, ln, d, t) * Damping(docs, d, f) == Rarity(docs, ln, t) * (f as real * 2.2)
  {
    hide Weight, Idf, AverageLength, DocFrequency, Places, Holders, Rarity, Positive;
    var f := multiset(d.tokens)[t];
    assert f > 0 by { FrequencyPositive(d.tokens, t); }
    PositiveLength(docs, d);
    IdfIsRarity(docs, ln, d, t);
    OwnLength(d);
    var total, dl, avgdl := |Places(docs, |docs|)| as real, |d.tokens| as real, Positive(AverageLength(docs));
    RelativeLength(dl, total, |docs| as real);
    WeightTimesDamping(f, dl, avgdl, dl * |docs| as real / total);
    Reassociate(Rarity(docs, ln, t), Weight(f, dl, avgdl), Damping(docs, d, f), f as real * 2.2);
  }

  lemma OwnLength(d: Doc)
    requires d.tokens != []
    ensures Positive(|d.tokens| as real) == |d.tokens| as real > 0.0
  {
  }

  lemma Reassociate(r: real, w: real, m: real, p: real)
    requires w * m == p
    ensures (r * w) * m == r * p
  {
    assert (r * w) * m == r * (w * m);
  }

  lemma TermOfDistinct(docs: seq<Doc>, ln: real -> real, d: Doc, t: string)
    requires d in docs && d.tokens != [] && NoRepeats(d.tokens)
    ensures |Places(docs, |docs|)| > 0
    ensures DocTerm(docs, ln, d, t) * Damping(docs, d, 1) == 2.2 * if t in d.tokens then Rarity(docs, ln, t) else 0.0
  {
    hide DocTerm, Places, Rarity, NoRepeats, Damping;
    PositiveLength(docs, d);
    if t in d.tokens {
      DistinctFrequency(d.tokens, t);
      TermFormula(docs, ln, d, t);
    } else {
      TermAbsent(docs, ln, d, t);
      assert 0.0 * Damping(docs, d, 1) == 0.0;
    }
  }

  lemma TermAbsent(docs: seq<Doc>, ln: real -> real, d: Doc, t: string)
    requires d in docs && t !in d.tokens
    ensures DocTerm(docs, ln, d, t) == 0.0
  {
  }

  /**
   * The score of a document with distinct tokens, as the tokenizer leaves them, from the documents alone:
   * score · (1 + 1.2·(0.25 + 0.75·|d|·N/total)) = 2.2 · Σ ln((N + 1)/(df + 0.5)) over the shared tokens.
   */
  lemma {:induction false} ScoreFormula(docs: seq<Doc>, ln: real -> real, d: Doc, query: seq<string>, n: nat)
    requires d in docs && d.tokens != [] && NoRepeats(d.tokens) && n <= |query|
    ensures |Places(docs, |docs|)| > 0
    ensures DocScore(docs, ln, d, query, n) * Damping(docs, d, 1) == 2.2 * MatchedRarity(docs, ln, d, query, n)
  {
    hide DocTerm, Places, Rarity, NoRepeats, Damping;
    PositiveLength(docs, d);
    if n == 0 {
      assert 0.0 * Damping(docs, d, 1) == 0.0;
    } else {
      ScoreFormula(docs, ln, d, query, n - 1);
      TermOfDistinct(docs, ln, d, query[n - 1]);
      Distribute(Damping(docs, d, 1), DocScore(docs, ln, d, query, n - 1), DocTerm(docs, ln, d, query[n - 1]));
    }
  }

  /** A document without tokens scores 0. */
  lemma {:induction false} EmptyScoresZero(docs: seq<Doc>, ln: real -> real, d: Doc, query: seq<string>, n: nat)
    requires d in docs && d.tokens == [] && n <= |query|
    ensures DocScore(docs, ln, d, query, n) == 0.0
  {
    hide DocTerm;
    if n > 0 {
      EmptyScoresZero(docs, ln, d, query, n - 1);
      TermAbsent(docs, ln, d, query[n - 1]);
    }
  }

  /** A document of average length scores exactly the summed rarities of the tokens it shares. */
  lemma AverageScoresRarity(docs: seq<Doc>, ln: real -> real, d: Doc, query: seq<string>)
    requires d in docs && d.tokens != [] && NoRepeats(d.tokens)
    requires |d.tokens| * |docs| == |Places(docs, |docs|)|
    ensures DocScore(docs, ln, d, query, |query|) == MatchedRarity(docs, ln, d, query, |query|)
  {
    hide DocScore, MatchedRarity, Places, NoRepeats;
    ScoreFormula(docs, ln, d, query, |query|);
    assert |d.tokens| as real * |docs| as real == (|d.tokens| * |docs|) as real;
    FullRatio(|d.tokens| as real * |docs| as real, |Places(docs, |docs|)| as real);
  }

  lemma FullRatio(p: real, total: real)
    requires p == total > 0.0
    ensures 1.0 + 1.2 * (0.25 + 0.75 * (p / total)) == 2.2
  {
    Quotient(1.0, total, p);
  }
}
