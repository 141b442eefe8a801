/** Runs of uploads: when ingestion keeps every document intact, and two uploads that tear one. */
module UploadRuns {
  import opened Domain
  import opened Text
  import opened Splitter
  import opened Ingest
  import opened IngestRuns

  // ---------------------------------------------------------------- uploads without line breaks in file names

  ghost predicate Injective(hash: string -> string) {
    forall k, l :: hash(k) == hash(l) ==> k == l
  }

  /** The job was prepared from some upload, with any classifier, model answers and clock. */
  ghost predicate Uploaded(cfg: Config, hash: string -> string, job: Job) {
    exists outside: Outside, filename: string, upload: Upload :: UploadedAs(cfg, hash, job, outside, filename, upload)
  }

  ghost predicate UploadedAs(cfg: Config, hash: string -> string, job: Job, outside: Outside, filename: string, upload: Upload) {
    && OnePerText(outside.embed) && outside.hash == hash && '\n' !in filename
    && Prepare(cfg, outside, filename, upload) == Ok(job)
  }

  /** Any interleaving of uploads under one configuration and one hash. */
  ghost predicate UploadRun(cfg: Config, hash: string -> string, events: seq<Event>) {
    Ordered(events) && forall p :: 0 <= p < |events| ==> Uploaded(cfg, hash, events[p].job)
  }

  lemma UploadedWellFormed(cfg: Config, hash: string -> string, job: Job)
    requires Uploaded(cfg, hash, job)
    ensures WellFormed(job)
  {
    hide Prepare, WellFormed, OnePerText;
    var outside: Outside, filename: string, upload: Upload :| UploadedAs(cfg, hash, job, outside, filename, upload);
    PreparedWellFormed(cfg, outside, filename, upload);
  }

  /** Uploads of the same document make the same number of chunks. */
  lemma UploadedSameCount(cfg: Config, hash: string -> string, a: Job, b: Job)
    requires Injective(hash) && Uploaded(cfg, hash, a) && Uploaded(cfg, hash, b) && a.documentId == b.documentId
    ensures |a.chunks| == |b.chunks|
  {
    hide Prepare, OnePerText, DocumentKey, TrimSpace;
    var o: Outside, f: string, u: Upload :| UploadedAs(cfg, hash, a, o, f, u);
    var p: Outside, g: string, v: Upload :| UploadedAs(cfg, hash, b, p, g, v);
    SameDocumentSameCount(cfg, o, f, u, p, g, v);
  }

  lemma UploadsCompatible(cfg: Config, hash: string -> string, events: seq<Event>)
    requires Injective(hash) && UploadRun(cfg, hash, events)
    ensures WellFormedRun(events) && Compatible(events)
  {
    hide Injective, Uploaded, WellFormed;
    forall p | 0 <= p < |events|
      ensures WellFormed(events[p].job)
    {
      UploadedWellFormed(cfg, hash, events[p].job);
    }
    forall p, q | 0 <= p < |events| && 0 <= q < |events| && events[p].job.documentId == events[q].job.documentId
      ensures |events[p].job.chunks| == |events[q].job.chunks|
    {
      UploadedSameCount(cfg, hash, events[p].job, events[q].job);
    }
  }

  /**
   * Under every interleaving of uploads whose file names hold no line break, every document is intact
   * at every moment: stored with exactly the indices 0..count−1 once completed, absent before.
   */
  lemma UploadsStayIntact(cfg: Config, hash: string -> string, events: seq<Event>, n: nat, d: string)
    requires Injective(hash) && UploadRun(cfg, hash, events) && n <= |events|
    ensures Intact(events, n, d)
  {
    hide Injective, UploadRun, Intact, WellFormedRun, Compatible;
    UploadsCompatible(cfg, hash, events);
    RunKeepsDocumentsComplete(events, n, d);
  }

  // ---------------------------------------------------------------- a line break in a file name

  /** A text of n letters. */
  function Letters(n: nat): (s: string)
    ensures |s| == n && forall i :: 0 <= i < n ==> s[i] == 'x'
  {
    seq(n, i => 'x')
  }

  lemma OneChunk(cfg: Config)
    requires 0 <= cfg.chunkOverlap < cfg.chunkSize
    ensures TrimSpace(Letters(cfg.chunkSize)) == Letters(cfg.chunkSize)
    ensures |Chunks(Letters(cfg.chunkSize), cfg.chunkSize, cfg.chunkOverlap)| == 1
  {
    hide TrimSpace, Emitted, Windows, Blank;
    var runes, step := Letters(cfg.chunkSize), cfg.chunkSize - cfg.chunkOverlap;
    TrimOfTrimmed(runes);
    WindowsUnfold(runes, cfg.chunkSize, step, 0);
    assert runes[0..cfg.chunkSize] == runes;
    EmittedFirst(runes, []);
    NothingEmitted();
  }

  lemma EmittedFirst(w: string, rest: seq<string>)
    requires w != [] && !IsSpace(w[0])
    ensures |Emitted([w] + rest)| == 1 + |Emitted(rest)|
  {
    assert ([w] + rest)[1..] == rest;
  }

  lemma TwoChunks(cfg: Config)
    requires 0 <= cfg.chunkOverlap < cfg.chunkSize
    ensures var text := "b\n" + Letters(cfg.chunkSize);
            TrimSpace(text) == text && |Chunks(text, cfg.chunkSize, cfg.chunkOverlap)| >= 2
  {
    hide TrimSpace, Emitted, Windows, Blank;
    var runes, step := "b\n" + Letters(cfg.chunkSize), cfg.chunkSize - cfg.chunkOverlap;
    assert runes[0] == 'b' && runes[|runes| - 1] == 'x';
    TrimOfTrimmed(runes);
    WindowsUnfold(runes, cfg.chunkSize, step, 0);
    EmittedFirst(runes[0..cfg.chunkSize], Windows(runes, cfg.chunkSize, step, step));
    SomethingEmitted(runes, cfg.chunkSize, step, step);
  }

  lemma SomethingEmitted(runes: string, size: nat, step: nat, start: nat)
    requires 0 < step <= size && start < |runes| && !IsSpace(runes[|runes| - 1])
    ensures Emitted(Windows(runes, size, step, start)) != []
  {
    hide TrimSpace, Emitted, Windows, Blank, IsSpace, Shows;
    var w, at := WindowShows(runes, size, step, start, |runes| - 1);
    TrimStillShows(w, runes, at, |runes| - 1);
    EmittedHolds(Windows(runes, size, step, start), w);
  }

  /** A world in which every model answers. */
  function Cooperative(hash: string -> string): (outside: Outside)
    ensures outside.hash == hash && OnePerText(outside.embed)
  {
    Outside(hash, text => "text", Ok("summary"), texts => Ok(seq(|texts|, i => [])), 0)
  }

  lemma Prepared(cfg: Config, hash: string -> string, filename: string, text: string)
    requires 0 <= cfg.chunkOverlap < cfg.chunkSize && TrimSpace(filename) != [] && text != [] && TrimSpace(text) == text
    ensures var r := Prepare(cfg, Cooperative(hash), filename, Utf8(text));
            && r.Ok? && WellFormed(r.value) && r.value.documentId == hash(DocumentKey(filename, text))
            && |r.value.chunks| == |Chunks(text, cfg.chunkSize, cfg.chunkOverlap)|
  {
    hide Prepare, Chunks, TrimSpace, DocumentKey, WellFormed;
    PrepareFailsIff(cfg, Cooperative(hash), filename, Utf8(text));
    PreparedWellFormed(cfg, Cooperative(hash), filename, Utf8(text));
  }

  /**
   * Whatever the validated configuration and the hash, two uploads exist that share their document id
   * with different chunk counts, and ingesting one after the other leaves the document torn.
   */
  lemma LineBreakTears(cfg: Config, hash: string -> string) returns (outside: Outside, long: Upload, short: Upload, events: seq<Event>)
    requires 0 <= cfg.chunkOverlap < cfg.chunkSize
    ensures outside.hash == hash && OnePerText(outside.embed)
    ensures Prepare(cfg, outside, "a", long).Ok? && Prepare(cfg, outside, "a\nb", short).Ok?
    ensures var a, b := Prepare(cfg, outside, "a", long).value, Prepare(cfg, outside, "a\nb", short).value;
            && a.documentId == b.documentId && |a.chunks| > |b.chunks|
            && OnlyJobs(events, a, b) && WellFormedRun(events) && Ordered(events)
            && !Complete(ChunksAfter(events, |events|), a.documentId)
  {
    hide Prepare, Chunks, TrimSpace, WellFormed, Complete, ChunksAfter, Ordered;
    var text := Letters(cfg.chunkSize);
    outside, long, short := Cooperative(hash), Utf8("b\n" + text), Utf8(text);
    OneChunk(cfg);
    TwoChunks(cfg);
    TrimOfTrimmed("a");
    TrimOfTrimmed("a\nb");
    Prepared(cfg, hash, "a", "b\n" + text);
    Prepared(cfg, hash, "a\nb", text);
    assert DocumentKey("a", "b\n" + text) == DocumentKey("a\nb", text);
    events := IncompatibleJobsTear(Prepare(cfg, outside, "a", long).value, Prepare(cfg, outside, "a\nb", short).value);
  }
}
