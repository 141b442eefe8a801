/** The in-memory BM25 index: tokenising, the loop-built tables, and scoring. */
module Bm25 {
  import opened Text
  import opened Ranking

  // ---------------------------------------------------------------- tokens

  /** Lower-case ASCII letters, digits and the CJK block are token characters; all else separates. */
  predicate IsSeparator(c: char) {
    !('a' <= c <= 'z' || '0' <= c <= '9' || '\U{4e00}' <= c <= '\U{9fff}')
  }

  /** Capitals are separators, too, unless lowering has turned them into letters. */
  lemma TokenCharacters(c: char)
    ensures 'a' <= c <= 'z' || '0' <= c <= '9' || '\U{4e00}' <= c <= '\U{9fff}' ==> !IsSeparator(c)
    ensures c <= '/' || ':' <= c <= '`' || '{' <= c < '\U{4e00}' || c > '\U{9fff}' ==> IsSeparator(c)
  {
  }

  function Lower(lower: char -> char, s: string): string {
    seq(|s|, i requires 0 <= i < |s| => lower(s[i]))
  }

  /** The first occurrences among the first n fields. */
  function FirstOccurrences(fields: seq<string>, n: nat): (out: seq<string>)
    requires n <= |fields|
    ensures forall i :: 0 <= i < n ==> fields[i] in out
    ensures forall t :: t in out ==> t in fields
  {
    if n == 0 then []
    else
      var before := FirstOccurrences(fields, n - 1);
      if fields[n - 1] in before then before else before + [fields[n - 1]]
  }

  function Tokens(lower: char -> char, text: string): seq<string> {
    var fields := Fields(Lower(lower, text), IsSeparator);
    FirstOccurrences(fields, |fields|)
  }

  lemma {:induction false} FirstOccurrencesDistinct(fields: seq<string>, n: nat)
    requires n <= |fields|
    ensures NoRepeats(FirstOccurrences(fields, n))
  {
    if n > 0 { FirstOccurrencesDistinct(fields, n - 1); }
  }

  /** A separator-free piece holds no white space: trimming it changes nothing. */
  lemma FieldIsTrimmed(field: string)
    requires field != [] && forall i :: 0 <= i < |field| ==> !IsSeparator(field[i])
    ensures TrimSpace(field) == field
  {
    TrimOfTrimmed(field);
  }

  /** Lower-case, split, trim, drop blanks and repeats: the distinct fields, in order of first occurrence. */
  method SparseTokens(lower: char -> char, query: string) returns (out: seq<string>)
    ensures out == Tokens(lower, query)
    ensures NoRepeats(out)
    ensures forall t :: t in out <==> IsField(Lower(lower, query), IsSeparator, t)
  {
    var fields := Fields(Lower(lower, query), IsSeparator);
    out := [];
    for i := 0 to |fields|
      invariant out == FirstOccurrences(fields, i)
    {
      assert fields[i] in fields;
      FieldIsTrimmed(fields[i]);
      var f := TrimSpace(fields[i]);
      if f != "" && f !in out { out := out + [f]; }
    }
    FirstOccurrencesDistinct(fields, |fields|);
    forall t
      ensures t in out <==> IsField(Lower(lower, query), IsSeparator, t)
    {
      FieldsAreMaximal(Lower(lower, query), IsSeparator, t);
    }
  }

  // ---------------------------------------------------------------- the model

  const K1 := 1.2
  const B := 0.75

  datatype Doc = Doc(id: string, tokens: seq<string>)

  datatype Model = Model(
    idf: map<string, real>,
    tf: map<string, map<string, nat>>,
    dl: map<string, nat>,
    avgdl: real,
    count: nat)

  /** All that is used of the natural logarithm. */
  ghost predicate LogLike(ln: real -> real) {
    ln(1.0) == 0.0 && forall x, y :: 0.0 < x < y ==> ln(x) < ln(y)
  }

  function Frequency(tokens: seq<string>, t: string): nat {
    multiset(tokens)[t]
  }

  /** In how many of the first n documents the term occurs. */
  function DocFrequency(docs: seq<Doc>, n: nat, t: string): (df: nat)
    requires n <= |docs|
    ensures df <= n
  {
    if n == 0 then 0 else DocFrequency(docs, n - 1, t) + if t in docs[n - 1].tokens then 1 else 0
  }

  function TotalLength(docs: seq<Doc>, n: nat): nat
    requires n <= |docs|
  {
    if n == 0 then 0 else TotalLength(docs, n - 1) + |docs[n - 1].tokens|
  }

  ghost predicate HasDoc(docs: seq<Doc>, n: nat, id: string)
    requires n <= |docs|
  {
    exists i :: 0 <= i < n && docs[i].id == id
  }

  /** docs[i] is the last of the first n documents with its id. */
  ghost predicate IsLast(docs: seq<Doc>, n: nat, i: nat)
    requires n <= |docs|
  {
    i < n && forall j :: i < j < n ==> docs[j].id != docs[i].id
  }

  ghost predicate CountsTokens(tokens: seq<string>, tf: map<string, nat>) {
    forall t :: if t in tf then tf[t] == Frequency(tokens, t) > 0 else Frequency(tokens, t) == 0
  }

  /** tf and dl of an id describe the last document that carries it. */
  ghost predicate TablesUpTo(docs: seq<Doc>, n: nat, tf: map<string, map<string, nat>>, dl: map<string, nat>)
    requires n <= |docs|
  {
    && tf.Keys == dl.Keys
    && (forall id :: id in tf <==> HasDoc(docs, n, id))
    && (forall i: nat :: IsLast(docs, n, i) ==> Describes(docs[i], tf, dl))
  }

  ghost predicate Describes(doc: Doc, tf: map<string, map<string, nat>>, dl: map<string, nat>) {
    doc.id in tf && CountsTokens(doc.tokens, tf[doc.id]) && doc.id in dl && dl[doc.id] == |doc.tokens|
  }

  ghost predicate DfUpTo(docs: seq<Doc>, n: nat, df: map<string, nat>)
    requires n <= |docs|
  {
    forall t :: if t in df then df[t] == DocFrequency(docs, n, t) > 0 else DocFrequency(docs, n, t) == 0
  }

  function Idf(ln: real -> real, count: nat, df: nat): real {
    ln(1.0 + (count as real - df as real + 0.5) / (df as real + 0.5))
  }

  function AverageLength(docs: seq<Doc>): real
    requires docs != []
  {
    var mean := TotalLength(docs, |docs|) as real / |docs| as real;
    if mean <= 0.0 then 1.0 else mean
  }

  /** The tables agree with their set-theoretic definitions. */
  ghost predicate IsModel(docs: seq<Doc>, ln: real -> real, m: Model) {
    && m.count == |docs|
    && TablesUpTo(docs, |docs|, m.tf, m.dl)
    && (forall t :: t in m.idf <==> DocFrequency(docs, |docs|, t) > 0)
    && (forall t :: t in m.idf ==> m.idf[t] == Idf(ln, |docs|, DocFrequency(docs, |docs|, t)))
    && m.avgdl == if docs == [] then 0.0 else AverageLength(docs)
  }

  ghost predicate Bumped(df: map<string, nat>, tokens: seq<string>, n: nat, df': map<string, nat>)
    requires n <= |tokens|
  {
    && (forall t :: t in df' <==> t in df || t in tokens[..n])
    && (forall t :: t in df' ==> df'[t] == (if t in df then df[t] else 0) + if t in tokens[..n] then 1 else 0)
  }

  lemma CountOneMore(tokens: seq<string>, n: nat, tf: map<string, nat>)
    requires n < |tokens| && CountsTokens(tokens[..n], tf)
    ensures CountsTokens(tokens[..n + 1], tf[tokens[n] := (if tokens[n] in tf then tf[tokens[n]] else 0) + 1])
    ensures tokens[n] in tf <==> tokens[n] in tokens[..n]
  {
    assert tokens[..n + 1] == tokens[..n] + [tokens[n]];
    assert tokens[n] in tokens[..n] <==> tokens[n] in multiset(tokens[..n]);
  }

  lemma BumpOneMore(df: map<string, nat>, tokens: seq<string>, n: nat, df': map<string, nat>)
    requires n < |tokens| && Bumped(df, tokens, n, df')
    ensures tokens[n] in tokens[..n] ==> Bumped(df, tokens, n + 1, df')
    ensures tokens[n] !in tokens[..n] ==>
              Bumped(df, tokens, n + 1, df'[tokens[n] := (if tokens[n] in df' then df'[tokens[n]] else 0) + 1])
  {
    assert tokens[..n + 1] == tokens[..n] + [tokens[n]];
  }

  /** Count one document's tokens, and bump the document frequency of each term the first time it is seen. */
  method CountDocument(tokens: seq<string>, df: map<string, nat>) returns (tf: map<string, nat>, df': map<string, nat>)
    ensures CountsTokens(tokens, tf)
    ensures Bumped(df, tokens, |tokens|, df')
  {
    tf, df' := map[], df;
    for i := 0 to |tokens|
      invariant CountsTokens(tokens[..i], tf)
      invariant Bumped(df, tokens, i, df')
    {
      var tk := tokens[i];
      CountOneMore(tokens, i, tf);
      BumpOneMore(df, tokens, i, df');
      if tk !in tf { df' := df'[tk := (if tk in df' then df'[tk] else 0) + 1]; }
      tf := tf[tk := (if tk in tf then tf[tk] else 0) + 1];
    }
    assert tokens[..|tokens|] == tokens;
  }

  lemma TablesOneMore(docs: seq<Doc>, n: nat, tf: map<string, map<string, nat>>, dl: map<string, nat>, counts: map<string, nat>)
    requires n < |docs| && TablesUpTo(docs, n, tf, dl) && CountsTokens(docs[n].tokens, counts)
    ensures TablesUpTo(docs, n + 1, tf[docs[n].id := counts], dl[docs[n].id := |docs[n].tokens|])
  {
    hide CountsTokens, HasDoc;
    var tf', dl' := tf[docs[n].id := counts], dl[docs[n].id := |docs[n].tokens|];
    forall i: nat | IsLast(docs, n + 1, i)
      ensures Describes(docs[i], tf', dl')
    {
      if i < n {
        assert docs[i].id != docs[n].id;
        assert IsLast(docs, n, i);
      }
    }
    forall id
      ensures id in tf' <==> HasDoc(docs, n + 1, id)
    {
      HasDocOneMore(docs, n, id);
    }
  }

  lemma HasDocOneMore(docs: seq<Doc>, n: nat, id: string)
    requires n < |docs|
    ensures HasDoc(docs, n + 1, id) <==> HasDoc(docs, n, id) || docs[n].id == id
  {
  }

  lemma TablesOfNothing(docs: seq<Doc>)
    ensures DfUpTo(docs, 0, map[]) && TablesUpTo(docs, 0, map[], map[])
  {
  }

  lemma DfOneMore(docs: seq<Doc>, n: nat, df: map<string, nat>, df': map<string, nat>)
    requires n < |docs| && DfUpTo(docs, n, df) && Bumped(df, docs[n].tokens, |docs[n].tokens|, df')
    ensures DfUpTo(docs, n + 1, df')
  {
    var tokens := docs[n].tokens;
    assert tokens[..|tokens|] == tokens;
  }

  /** The document loop: df, tf, dl and the total length. */
  method CountDocuments(docs: seq<Doc>)
    returns (df: map<string, nat>, tf: map<string, map<string, nat>>, dl: map<string, nat>, total: nat)
    ensures DfUpTo(docs, |docs|, df) && TablesUpTo(docs, |docs|, tf, dl) && total == TotalLength(docs, |docs|)
  {
    hide CountsTokens, Bumped, TablesUpTo, DfUpTo;
    TablesOfNothing(docs);
    df, tf, dl, total := map[], map[], map[], 0;
    for i := 0 to |docs|
      invariant DfUpTo(docs, i, df) && TablesUpTo(docs, i, tf, dl) && total == TotalLength(docs, i)
    {
      var counts, df' := CountDocument(docs[i].tokens, df);
      TablesOneMore(docs, i, tf, dl, counts);
      DfOneMore(docs, i, df, df');
      df, tf, dl := df', tf[docs[i].id := counts], dl[docs[i].id := |docs[i].tokens|];
      total := total + |docs[i].tokens|;
    }
  }

  method BuildBm25Model(docs: seq<Doc>, ln: real -> real) returns (m: Model)
    ensures IsModel(docs, ln, m)
  {
    hide TablesUpTo, Idf;
    if |docs| == 0 {
      TablesOfNothing(docs);
      return Model(map[], map[], map[], 0.0, 0);
    }
    var df, tf, dl, total := CountDocuments(docs);
    var avgdl := total as real / |docs| as real;
    if avgdl <= 0.0 { avgdl := 1.0; }
    var idf := InverseFrequencies(df, |docs|, ln);
    m := Model(idf, tf, dl, avgdl, |docs|);
  }

  method InverseFrequencies(df: map<string, nat>, count: nat, ln: real -> real) returns (idf: map<string, real>)
    ensures idf.Keys == df.Keys
    ensures forall t :: t in idf ==> idf[t] == Idf(ln, count, df[t])
  {
    idf := map[];
    var terms := df.Keys;
    while terms != {}
      invariant terms <= df.Keys && idf.Keys == df.Keys - terms
      invariant forall t :: t in idf ==> idf[t] == Idf(ln, count, df[t])
      decreases |terms|
    {
      var t :| t in terms;  // map iteration order is arbitrary
      idf := idf[t := Idf(ln, count, df[t])];
      terms := terms - {t};
    }
  }

  // ---------------------------------------------------------------- scoring

  /** Term-frequency saturation with length normalisation. */
  function Weight(freq: nat, dl: real, avgdl: real): real
    requires freq > 0 && dl > 0.0 && avgdl > 0.0
  {
    WeightDefined(freq, dl, avgdl);
    (freq as real * (K1 + 1.0)) / (freq as real + K1 * (1.0 - B + B * (dl / avgdl)))
  }

  lemma WeightDefined(freq: nat, dl: real, avgdl: real)
    requires freq > 0 && dl > 0.0 && avgdl > 0.0
    ensures dl / avgdl > 0.0
    ensures freq as real + K1 * (1.0 - B + B * (dl / avgdl)) > 1.3
  {
  }

  function Positive(x: real): (p: real)
    ensures p > 0.0
  {
    if x <= 0.0 then 1.0 else x
  }

  /** What a term adds to the score of document d. */
  function DocTerm(docs: seq<Doc>, ln: real -> real, d: Doc, t: string): real
    requires d in docs
  {
    if t in d.tokens
    then Idf(ln, |docs|, DocFrequency(docs, |docs|, t))
         * Weight(Frequency(d.tokens, t), Positive(|d.tokens| as real), Positive(AverageLength(docs)))
    else 0.0
  }

  /** The score of document d for the first n query tokens, from the definitions alone. */
  function DocScore(docs: seq<Doc>, ln: real -> real, d: Doc, query: seq<string>, n: nat): real
    requires d in docs && n <= |query|
  {
    if n == 0 then 0.0 else DocScore(docs, ln, d, query, n - 1) + DocTerm(docs, ln, d, query[n - 1])
  }

  /** One step of the scoring loop, read off the tables. */
  function TableTerm(m: Model, tf: map<string, nat>, dl: real, avgdl: real, qt: string): real
    requires dl > 0.0 && avgdl > 0.0
  {
    var freq := if qt in tf then tf[qt] else 0;
    if freq <= 0 then 0.0
    else (if qt in m.idf then m.idf[qt] else 0.0) * Weight(freq, dl, avgdl)
  }

  /** The table entries read by the scoring loop. */
  lemma TableEntries(docs: seq<Doc>, ln: real -> real, m: Model, i: nat, qt: string)
    requires IsModel(docs, ln, m) && IsLast(docs, |docs|, i)
    ensures docs[i].id in m.tf && docs[i].id in m.dl && m.dl[docs[i].id] == |docs[i].tokens|
    ensures m.avgdl == AverageLength(docs)
    ensures qt in m.tf[docs[i].id] <==> qt in docs[i].tokens
    ensures qt in docs[i].tokens ==>
              && m.tf[docs[i].id][qt] == Frequency(docs[i].tokens, qt) > 0
              && qt in m.idf && m.idf[qt] == Idf(ln, |docs|, DocFrequency(docs, |docs|, qt))
  {
    hide Idf, AverageLength, Frequency, CountsTokens, DocFrequency;
    var d := docs[i];
    assert Describes(d, m.tf, m.dl);
    CountedToken(d.tokens, m.tf[d.id], qt);
    if qt in d.tokens {
      DocFrequencyPositive(docs, |docs|, i, qt);
    }
  }

  lemma TableTermIsDocTerm(docs: seq<Doc>, ln: real -> real, m: Model, i: nat, qt: string)
    requires IsModel(docs, ln, m) && IsLast(docs, |docs|, i)
    ensures docs[i].id in m.tf && docs[i].id in m.dl
    ensures TableTerm(m, m.tf[docs[i].id], Positive(m.dl[docs[i].id] as real), Positive(m.avgdl), qt)
         == DocTerm(docs, ln, docs[i], qt)
  {
    hide Weight, Idf, AverageLength, Frequency, DocFrequency, IsModel, IsLast, Positive;
    TableEntries(docs, ln, m, i, qt);
  }

  lemma CountedToken(tokens: seq<string>, tf: map<string, nat>, t: string)
    requires CountsTokens(tokens, tf)
    ensures t in tf <==> t in tokens
    ensures t in tf ==> tf[t] == Frequency(tokens, t) > 0
  {
    assert t in multiset(tokens) <==> t in tokens;
  }

  lemma {:induction false} DocFrequencyPositive(docs: seq<Doc>, n: nat, i: nat, t: string)
    requires i < n <= |docs| && t in docs[i].tokens
    ensures DocFrequency(docs, n, t) >= 1
  {
    if i < n - 1 { DocFrequencyPositive(docs, n - 1, i, t); }
  }

  /** Scoring a document id against the model gives the score of the last document with that id. */
  method Score(m: Model, docId: string, query: seq<string>, ghost docs: seq<Doc>, ghost ln: real -> real)
    returns (score: real)
    requires IsModel(docs, ln, m)
    ensures !HasDoc(docs, |docs|, docId) ==> score == 0.0
    ensures forall i: nat :: IsLast(docs, |docs|, i) && docs[i].id == docId ==>
              score == DocScore(docs, ln, docs[i], query, |query|)
  {
    hide Weight, Idf, AverageLength, TableTerm, DocTerm, CountsTokens, DocFrequency;
    score := 0.0;
    if docId !in m.tf {
      assert forall i: nat :: IsLast(docs, |docs|, i) ==> Describes(docs[i], m.tf, m.dl);
      return;
    }
    var dl, avgdl := Positive(m.dl[docId] as real), Positive(m.avgdl);
    for k := 0 to |query|
      invariant forall i: nat :: IsLast(docs, |docs|, i) && docs[i].id == docId ==>
                  score == DocScore(docs, ln, docs[i], query, k)
    {
      forall i: nat | IsLast(docs, |docs|, i) && docs[i].id == docId
        ensures TableTerm(m, m.tf[docId], dl, avgdl, query[k]) == DocTerm(docs, ln, docs[i], query[k])
      {
        TableTermIsDocTerm(docs, ln, m, i, query[k]);
      }
      score := score + TableTerm(m, m.tf[docId], dl, avgdl, query[k]);
    }
  }
}
