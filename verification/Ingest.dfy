/** Ingestion: identifiers, the records made from an upload, and the two-step write into the store. */
module Ingest {
  import opened Domain
  import opened Text
  import opened Vectors
  import opened Upsert
  import opened Splitter
  import opened MemoryStore

  // ---------------------------------------------------------------- identifiers

  function Digit(d: nat): char
    requires d < 10
  {
    ['0', '1', '2', '3', '4', '5', '6', '7', '8', '9'][d]
  }

  predicate IsDigit(c: char) { '0' <= c <= '9' }

  function Decimal(n: nat): (s: string)
    ensures s != [] && forall i :: 0 <= i < |s| ==> IsDigit(s[i])
  {
    if n < 10 then [Digit(n)] else Decimal(n / 10) + [Digit(n % 10)]
  }

  /** `%03d`: the decimal digits, padded with zeros to at least three. */
  function Padded(n: nat): (s: string)
    ensures forall i :: 0 <= i < |s| ==> IsDigit(s[i])
  {
    if n < 10 then "00" + Decimal(n) else if n < 100 then "0" + Decimal(n) else Decimal(n)
  }

  function DigitValue(c: char): int { c as int - '0' as int }

  /** Reading digits back. */
  function ValueOf(s: string): int {
    if s == [] then 0 else 10 * ValueOf(s[..|s| - 1]) + DigitValue(s[|s| - 1])
  }

  lemma {:induction false} DecimalRoundTrip(n: nat)
    ensures ValueOf(Decimal(n)) == n
  {
    if n < 10 {
      assert ValueOf(Decimal(n)) == 10 * ValueOf([]) + DigitValue(Digit(n));
    } else {
      var s := Decimal(n);
      DecimalRoundTrip(n / 10);
      assert s[..|s| - 1] == Decimal(n / 10);
    }
  }

  lemma {:induction false} LeadingZero(s: string)
    ensures ValueOf("0" + s) == ValueOf(s)
  {
    if s == [] {
      assert ValueOf("0" + s) == 10 * ValueOf([]) + DigitValue('0');
    } else {
      LeadingZero(s[..|s| - 1]);
      assert ("0" + s)[..|s|] == "0" + s[..|s| - 1];
    }
  }

  /** Padding loses nothing: the index can be read back, so distinct indices print differently. */
  lemma PaddedRoundTrip(n: nat)
    ensures ValueOf(Padded(n)) == n
  {
    DecimalRoundTrip(n);
    LeadingZero(Decimal(n));
    LeadingZero("0" + Decimal(n));
    assert "00" + Decimal(n) == "0" + ("0" + Decimal(n));
  }

  function ChunkId(documentId: string, index: nat): string {
    "chk_" + documentId + "_" + Padded(index)
  }

  function SummaryId(documentId: string): string {
    "sum_" + documentId
  }

  /** Short indices are padded to three digits, longer ones stand as they are. */
  lemma PaddedWidth(n: nat)
    ensures |Padded(n)| >= 3 && (n >= 100 ==> Padded(n) == Decimal(n)) && (n < 1000 ==> |Padded(n)| == 3)
  {
    hide Decimal;
    if n >= 10 {
      DecimalGrows(n);
      if n >= 100 {
        DecimalGrows(n / 10);
        if n < 1000 { DecimalShort(n / 100); }
      } else {
        DecimalShort(n / 10);
      }
    } else {
      DecimalShort(n);
    }
  }

  lemma DecimalGrows(n: nat)
    requires n >= 10
    ensures |Decimal(n)| == |Decimal(n / 10)| + 1
  {
  }

  lemma DecimalShort(n: nat)
    requires n < 10
    ensures |Decimal(n)| == 1
  {
  }

  lemma DigitsAfterMark(s: string, a: string, p: string)
    requires s == a + "_" + p && forall i :: 0 <= i < |p| ==> IsDigit(p[i])
    ensures forall i :: |a| < i < |s| ==> s[i] != '_'
  {
    forall i | |a| < i < |s|
      ensures s[i] != '_'
    {
      assert s[i] == p[i - |a| - 1];
    }
  }

  lemma SuffixAfterMark(a: string, p: string, b: string, q: string)
    requires a + "_" + p == b + "_" + q
    requires forall i :: 0 <= i < |p| ==> IsDigit(p[i])
    requires forall i :: 0 <= i < |q| ==> IsDigit(q[i])
    ensures a == b && p == q
  {
    var s := a + "_" + p;
    assert s[|a|] == '_' && s[|b|] == '_';
    DigitsAfterMark(s, a, p);
    DigitsAfterMark(s, b, q);
    assert a == s[..|a|] && b == s[..|b|];
    assert p == s[|a| + 1..] && q == s[|b| + 1..];
  }

  /** Chunk ids of different documents or positions never coincide, whatever the document ids look like. */
  lemma ChunkIdInjective(d: string, i: nat, e: string, j: nat)
    requires ChunkId(d, i) == ChunkId(e, j)
    ensures d == e && i == j
  {
    var s := ChunkId(d, i);
    assert s[4..] == d + "_" + Padded(i);
    assert s[4..] == e + "_" + Padded(j);
    SuffixAfterMark(d, Padded(i), e, Padded(j));
    PaddedRoundTrip(i);
    PaddedRoundTrip(j);
  }

  lemma SummaryIdInjective(d: string, e: string)
    requires SummaryId(d) == SummaryId(e)
    ensures d == e
  {
    assert SummaryId(d)[4..] == d && SummaryId(e)[4..] == e;
  }

  /** What the document id is a hash of. */
  function DocumentKey(filename: string, text: string): string {
    filename + "\n" + text
  }

  /**
   * Two uploads share a key exactly when they are equal or one file name continues the other past a
   * line break, into its text.
   */
  lemma KeyCollision(f: string, t: string, g: string, u: string)
    requires |f| <= |g|
    ensures DocumentKey(f, t) == DocumentKey(g, u) <==>
            || (f == g && t == u)
            || (|f| < |g| && g[..|f| + 1] == f + "\n" && t == g[|f| + 1..] + "\n" + u)
  {
    var k, l := DocumentKey(f, t), DocumentKey(g, u);
    if k == l {
      assert k[..|f|] == f && k[|f| + 1..] == t;
      if |f| == |g| {
        assert l[..|g|] == g && l[|g| + 1..] == u;
      } else {
        assert g[..|f| + 1] == l[..|f| + 1] == k[..|f| + 1] == f + "\n";
        assert t == l[|f| + 1..] == g[|f| + 1..] + "\n" + u;
      }
    }
    if |f| < |g| && g[..|f| + 1] == f + "\n" && t == g[|f| + 1..] + "\n" + u {
      assert g == g[..|f| + 1] + g[|f| + 1..];
      assert k == l;
    }
  }

  /** Without line breaks in file names the key determines the upload. */
  lemma KeyInjective(f: string, t: string, g: string, u: string)
    requires '\n' !in f && '\n' !in g && DocumentKey(f, t) == DocumentKey(g, u)
    ensures f == g && t == u
  {
    ContinuationHasBreak(f, g);
    ContinuationHasBreak(g, f);
    if |f| <= |g| {
      KeyCollision(f, t, g, u);
    } else {
      KeyCollision(g, u, f, t);
    }
  }

  lemma ContinuationHasBreak(f: string, g: string)
    ensures |f| < |g| && g[..|f| + 1] == f + "\n" ==> '\n' in g
  {
    if |f| < |g| && g[..|f| + 1] == f + "\n" {
      assert g[|f|] == g[..|f| + 1][|f|];
    }
  }

  // ---------------------------------------------------------------- records of one upload

  /** The uploaded bytes, decoded; an empty file decodes to the empty text. */
  datatype Upload = NotUtf8 | Utf8(text: string)

  datatype Config = Config(chunkSize: int, chunkOverlap: int, chunkCollection: string, summaryCollection: string)

  /** The embedding model. */
  type Embedder = seq<string> -> Result<seq<Vector>>

  /** A successful answer has one vector per text. */
  ghost predicate OnePerText(embed: Embedder) {
    forall texts :: embed(texts).Ok? ==> |embed(texts).value| == |texts|
  }

  /** The answers of the world outside: classifier, chat model, embedding model, clock and hash. */
  datatype Outside = Outside(
    hash: string -> string,
    classify: string -> string,
    chat: Result<string>,
    embed: Embedder,
    now: int)

  /** The records one upload writes. */
  datatype Job = Job(documentId: string, summary: Summary, chunks: seq<Chunk>)

  function JobKey(j: Job): string { j.documentId }

  datatype UploadResponse = UploadResponse(documentId: string, filename: string, chunks: nat, summaries: nat)

  function NormalizeText(upload: Upload): Result<string> {
    if upload.NotUtf8? then Err("unsupported non-utf8 file")
    else if TrimSpace(upload.text) == "" then Err("file has no readable text")
    else Ok(TrimSpace(upload.text))
  }

  function LimitRunes(s: string, max: nat): string {
    if |s| <= max then s else s[..max]
  }

  function BuildSummary(outside: Outside, text: string): Result<string> {
    if outside.classify(text) == "table" then Ok(LimitRunes(text, 1200))
    else if outside.chat.Err? then Err("llm summarize")
    else Ok(TrimSpace(outside.chat.value))
  }

  function MakeChunk(outside: Outside, filename: string, text: string, documentId: string, texts: seq<string>,
                     vectors: seq<Vector>, i: nat): Chunk
    requires i < |texts| == |vectors|
  {
    Chunk(ChunkId(documentId, i), documentId, SummaryId(documentId), filename, texts[i], vectors[i], outside.now, i,
          |texts|, outside.classify(text))
  }

  function AllChunks(outside: Outside, filename: string, text: string, documentId: string, texts: seq<string>,
                     vectors: seq<Vector>): seq<Chunk>
    requires |texts| == |vectors|
  {
    seq(|texts|, i requires 0 <= i < |texts| => MakeChunk(outside, filename, text, documentId, texts, vectors, i))
  }

  /** The checks and calls of an ingest up to its first write, in order. */
  function Prepare(cfg: Config, outside: Outside, filename: string, upload: Upload): Result<Job>
    requires OnePerText(outside.embed)
  {
    if TrimSpace(filename) == "" then Err("filename is required")
    else if upload == Utf8("") then Err("empty file")
    else
      var normal := NormalizeText(upload);
      if normal.Err? then Err(normal.message)
      else
        var text := normal.value;
        var documentId := outside.hash(DocumentKey(filename, text));
        var texts := Chunks(text, cfg.chunkSize, cfg.chunkOverlap);
        if |texts| == 0 then Err("no chunks produced")
        else
          var summary := BuildSummary(outside, text);
          if summary.Err? then Err(summary.message)
          else
            var vectors := outside.embed(texts);
            var summaryVectors := outside.embed([summary.value]);
            if vectors.Err? then Err("embed chunks")
            else if summaryVectors.Err? then Err("embed summary")
            else
              Ok(Job(documentId,
                     Summary(SummaryId(documentId), documentId, filename, summary.value, summaryVectors.value[0], outside.now,
                             outside.classify(text)),
                     AllChunks(outside, filename, text, documentId, texts, vectors.value)))
  }

  method MakeChunks(outside: Outside, filename: string, text: string, documentId: string, texts: seq<string>,
                    vectors: seq<Vector>) returns (chunks: seq<Chunk>)
    requires |texts| == |vectors|
    ensures chunks == AllChunks(outside, filename, text, documentId, texts, vectors)
  {
    hide MakeChunk;
    chunks := [];
    for i := 0 to |texts|
      invariant |chunks| == i
      invariant forall k :: 0 <= k < i ==> chunks[k] == MakeChunk(outside, filename, text, documentId, texts, vectors, k)
    {
      chunks := chunks + [MakeChunk(outside, filename, text, documentId, texts, vectors, i)];
    }
  }

  /** Everything before the first write. */
  method PrepareRecords(cfg: Config, outside: Outside, filename: string, upload: Upload) returns (r: Result<Job>)
    requires OnePerText(outside.embed)
    ensures r == Prepare(cfg, outside, filename, upload)
  {
    hide TrimSpace, Chunks, OnePerText, AllChunks, SummaryId, BuildSummary;
    if TrimSpace(filename) == "" { return Err("filename is required"); }
    if upload == Utf8("") { return Err("empty file"); }
    var normal := NormalizeText(upload);
    if normal.Err? { return Err(normal.message); }
    var text := normal.value;
    var documentId := outside.hash(DocumentKey(filename, text));
    var texts := SplitByRunes(text, cfg.chunkSize, cfg.chunkOverlap);
    if |texts| == 0 { return Err("no chunks produced"); }
    var summary := BuildSummary(outside, text);
    if summary.Err? { return Err(summary.message); }
    var vectors := outside.embed(texts);
    if vectors.Err? { return Err("embed chunks"); }
    var summaryVectors := outside.embed([summary.value]);
    if summaryVectors.Err? { return Err("embed summary"); }
    EmbeddedOne(outside, texts);
    EmbeddedOne(outside, [summary.value]);
    var chunks := MakeChunks(outside, filename, text, documentId, texts, vectors.value);
    var record := Summary(SummaryId(documentId), documentId, filename, summary.value, summaryVectors.value[0], outside.now,
                          outside.classify(text));
    r := Ok(Job(documentId, record, chunks));
  }

  lemma EmbeddedOne(outside: Outside, texts: seq<string>)
    requires OnePerText(outside.embed)
    ensures outside.embed(texts).Ok? ==> |outside.embed(texts).value| == |texts|
  {
  }

  /** An upload writes its summary, then its chunks; a failing one writes nothing. */
  method IngestFile(store: MemoryStore, cfg: Config, outside: Outside, filename: string, upload: Upload)
    returns (r: Result<UploadResponse>)
    requires OnePerText(outside.embed)
    modifies store
    ensures var job := Prepare(cfg, outside, filename, upload);
            if job.Err? then r == Err(job.message) && store.chunks == old(store.chunks) && store.summaries == old(store.summaries)
            else
              && r == Ok(UploadResponse(job.value.documentId, filename, |job.value.chunks|, 1))
              && store.summaries == old(store.summaries)[cfg.summaryCollection :=
                   Upserted(old(store.SummariesIn(cfg.summaryCollection)), [job.value.summary], SummaryKey)]
              && store.chunks == old(store.chunks)[cfg.chunkCollection :=
                   Upserted(old(store.ChunksIn(cfg.chunkCollection)), job.value.chunks, ChunkKey)]
  {
    hide Prepare, Upserted;
    var job := PrepareRecords(cfg, outside, filename, upload);
    if job.Err? { return Err(job.message); }
    store.UpsertSummaries(cfg.summaryCollection, [job.value.summary]);
    store.UpsertChunks(cfg.chunkCollection, job.value.chunks);
    r := Ok(UploadResponse(job.value.documentId, filename, |job.value.chunks|, 1));
  }

  // ---------------------------------------------------------------- what a job looks like

  ghost predicate WellFormed(j: Job) {
    && j.summary.summaryId == SummaryId(j.documentId) && j.summary.documentId == j.documentId
    && j.chunks != []
    && forall i :: 0 <= i < |j.chunks| ==> WellFormedChunk(j, i)
  }

  ghost predicate WellFormedChunk(j: Job, i: nat)
    requires i < |j.chunks|
  {
    var c := j.chunks[i];
    && c.chunkId == ChunkId(j.documentId, i) && c.documentId == j.documentId && c.summaryId == SummaryId(j.documentId)
    && c.chunkIndex == i && c.chunkCount == |j.chunks|
  }

  lemma PreparedWellFormed(cfg: Config, outside: Outside, filename: string, upload: Upload)
    requires OnePerText(outside.embed) && Prepare(cfg, outside, filename, upload).Ok?
    ensures var job, text := Prepare(cfg, outside, filename, upload).value, TrimSpace(upload.text);
            && WellFormed(job)
            && job.documentId == outside.hash(DocumentKey(filename, text))
            && job.summary.source == filename
            && |job.chunks| == |Chunks(text, cfg.chunkSize, cfg.chunkOverlap)|
            && forall i :: 0 <= i < |job.chunks| ==>
                 job.chunks[i].text == Chunks(text, cfg.chunkSize, cfg.chunkOverlap)[i] && job.chunks[i].source == filename
  {
    hide ChunkId, SummaryId, Chunks, TrimSpace, OnePerText, DocumentKey, BuildSummary;
  }

  /**
   * Every chunk is stored with the vector of its own text, the clock's time and the upload's class; the
   * summary with the vector of its own text, which for tables is the text cut to 1200 characters and
   * otherwise the model's answer.
   */
  lemma PreparedRecords(cfg: Config, outside: Outside, filename: string, upload: Upload)
    requires OnePerText(outside.embed) && Prepare(cfg, outside, filename, upload).Ok? && upload.Utf8?
    ensures var job, text := Prepare(cfg, outside, filename, upload).value, TrimSpace(upload.text);
            var texts := Chunks(text, cfg.chunkSize, cfg.chunkOverlap);
            && outside.embed(texts).Ok? && |outside.embed(texts).value| == |job.chunks| == |texts|
            && (forall i :: 0 <= i < |job.chunks| ==>
                  && job.chunks[i].embedding == outside.embed(texts).value[i]
                  && job.chunks[i].createdAt == outside.now && job.chunks[i].contentClass == outside.classify(text))
            && outside.embed([job.summary.text]).Ok? && |outside.embed([job.summary.text]).value| == 1
            && job.summary.embedding == outside.embed([job.summary.text]).value[0]
            && job.summary.createdAt == outside.now && job.summary.contentClass == outside.classify(text)
            && (outside.classify(text) == "table" ==>
                  job.summary.text <= text && |job.summary.text| == if |text| < 1200 then |text| else 1200)
            && (outside.classify(text) != "table" ==> outside.chat.Ok? && job.summary.text == TrimSpace(outside.chat.value))
  {
    hide ChunkId, SummaryId, Chunks, TrimSpace, OnePerText, DocumentKey;
    EmbeddedOne(outside, Chunks(TrimSpace(upload.text), cfg.chunkSize, cfg.chunkOverlap));
    EmbeddedOne(outside, [Prepare(cfg, outside, filename, upload).value.summary.text]);
  }

  lemma PreparedIsText(cfg: Config, outside: Outside, filename: string, upload: Upload)
    requires OnePerText(outside.embed) && Prepare(cfg, outside, filename, upload).Ok?
    ensures upload.Utf8?
  {
    hide ChunkId, SummaryId, Chunks, TrimSpace, OnePerText, DocumentKey, BuildSummary, AllChunks;
  }

  /** With a validated configuration an ingest fails exactly for a blank name, unreadable text, or a failing model. */
  lemma PrepareFailsIff(cfg: Config, outside: Outside, filename: string, upload: Upload)
    requires OnePerText(outside.embed) && 0 <= cfg.chunkOverlap < cfg.chunkSize
    ensures Prepare(cfg, outside, filename, upload).Err? <==>
            || Blank(filename)
            || upload.NotUtf8?
            || Blank(upload.text)
            || (outside.chat.Err? && outside.classify(TrimSpace(upload.text)) != "table")
            || outside.embed(Chunks(TrimSpace(upload.text), cfg.chunkSize, cfg.chunkOverlap)).Err?
            || outside.embed([BuildSummary(outside, TrimSpace(upload.text)).value]).Err?
  {
    hide Chunks, OnePerText, ChunkId, SummaryId, AllChunks, DocumentKey;
    if upload.Utf8? && !Blank(upload.text) {
      TrimTwice(upload.text);
      SomeChunkProduced(TrimSpace(upload.text), cfg.chunkSize, cfg.chunkOverlap);
    }
  }

  /** With a validated configuration "no chunks produced" cannot happen. */
  lemma NeverWithoutChunks(cfg: Config, outside: Outside, filename: string, upload: Upload)
    requires OnePerText(outside.embed) && 0 <= cfg.chunkOverlap < cfg.chunkSize
    ensures Prepare(cfg, outside, filename, upload) != Err("no chunks produced")
  {
    hide Chunks, OnePerText, TrimSpace, AllChunks, DocumentKey, SummaryId, BuildSummary;
    var normal := NormalizeText(upload);
    if normal.Ok? {
      TrimTwice(upload.text);
      SomeChunkProduced(normal.value, cfg.chunkSize, cfg.chunkOverlap);
      SummaryFailure(outside, normal.value);
    }
  }

  lemma SummaryFailure(outside: Outside, text: string)
    ensures BuildSummary(outside, text).Err? ==> BuildSummary(outside, text).message == "llm summarize"
  {
  }

  /** Same configuration, no line break in either file name, no hash collision: same document, same number of chunks. */
  lemma SameDocumentSameCount(cfg: Config, a: Outside, f: string, u: Upload, b: Outside, g: string, v: Upload)
    requires OnePerText(a.embed) && OnePerText(b.embed) && a.hash == b.hash && '\n' !in f && '\n' !in g
    requires Prepare(cfg, a, f, u).Ok? && Prepare(cfg, b, g, v).Ok?
    requires forall k, l ::
               (a.hash(k) == a.hash(l) && k == DocumentKey(f, TrimSpace(u.text)) && l == DocumentKey(g, TrimSpace(v.text))) ==> k == l
    requires Prepare(cfg, a, f, u).value.documentId == Prepare(cfg, b, g, v).value.documentId
    ensures |Prepare(cfg, a, f, u).value.chunks| == |Prepare(cfg, b, g, v).value.chunks|
  {
    hide Prepare, WellFormed, Chunks, TrimSpace, OnePerText, DocumentKey;
    PreparedIsText(cfg, a, f, u);
    PreparedIsText(cfg, b, g, v);
    PreparedWellFormed(cfg, a, f, u);
    PreparedWellFormed(cfg, b, g, v);
    KeyInjective(f, TrimSpace(u.text), g, TrimSpace(v.text));
  }
}
