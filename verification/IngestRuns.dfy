/**
 * Concurrent ingestion. Each upsert is one atomic step of the store, so a run is any sequence of
 * summary writes and chunk writes in which every chunk write comes after its job's summary write.
 */
module IngestRuns {
  import opened Domain
  import opened Upsert
  import opened MemoryStore
  import opened Ingest

  datatype Event = StoreSummary(job: Job) | StoreChunks(job: Job)

  function SummariesAfter(events: seq<Event>, n: nat): seq<Summary>
    requires n <= |events|
  {
    if n == 0 then []
    else match events[n - 1]
      case StoreSummary(job) => Upserted(SummariesAfter(events, n - 1), [job.summary], SummaryKey)
      case StoreChunks(_) => SummariesAfter(events, n - 1)
  }

  function ChunksAfter(events: seq<Event>, n: nat): seq<Chunk>
    requires n <= |events|
  {
    if n == 0 then []
    else match events[n - 1]
      case StoreSummary(_) => ChunksAfter(events, n - 1)
      case StoreChunks(job) => Upserted(ChunksAfter(events, n - 1), job.chunks, ChunkKey)
  }

  /** Each ingest writes its summary first; other ingests may act in between, and an ingest may stop half way. */
  ghost predicate Ordered(events: seq<Event>) {
    forall p :: 0 <= p < |events| && events[p].StoreChunks? ==>
      exists q :: 0 <= q < p && events[q] == StoreSummary(events[p].job)
  }

  ghost predicate WellFormedRun(events: seq<Event>) {
    forall p :: 0 <= p < |events| ==> WellFormed(events[p].job)
  }

  /** Jobs of the same document have the same number of chunks. */
  ghost predicate Compatible(events: seq<Event>) {
    forall p, q :: 0 <= p < |events| && 0 <= q < |events| && events[p].job.documentId == events[q].job.documentId ==>
      |events[p].job.chunks| == |events[q].job.chunks|
  }

  // ---------------------------------------------------------------- the abstract table: one job per document

  function TableAfter(events: seq<Event>, n: nat): seq<Job>
    requires n <= |events|
  {
    if n == 0 then []
    else match events[n - 1]
      case StoreSummary(_) => TableAfter(events, n - 1)
      case StoreChunks(job) => Upserted(TableAfter(events, n - 1), [job], JobKey)
  }

  /** The chunks of all documents, document after document. */
  function Flatten(table: seq<Job>, n: nat): seq<Chunk>
    requires n <= |table|
  {
    if n == 0 then [] else Flatten(table, n - 1) + table[n - 1].chunks
  }

  ghost predicate GoodTable(table: seq<Job>) {
    UniqueKeys(table, JobKey) && forall t :: 0 <= t < |table| ==> WellFormed(table[t])
  }

  // ---------------------------------------------------------------- positions in the flattened table

  lemma {:induction false} FlattenAt(table: seq<Job>, n: nat, p: nat) returns (t: nat, i: nat)
    requires n <= |table| && p < |Flatten(table, n)|
    ensures t < n && i < |table[t].chunks| && Flatten(table, n)[p] == table[t].chunks[i]
    ensures |Flatten(table, t)| + i == p
  {
    if p < |Flatten(table, n - 1)| {
      t, i := FlattenAt(table, n - 1, p);
    } else {
      t, i := n - 1, p - |Flatten(table, n - 1)|;
    }
  }

  lemma {:induction false} FlattenHolds(table: seq<Job>, n: nat, t: nat, i: nat) returns (p: nat)
    requires t < n <= |table| && i < |table[t].chunks|
    ensures p < |Flatten(table, n)| && Flatten(table, n)[p] == table[t].chunks[i]
  {
    if t == n - 1 {
      p := |Flatten(table, n - 1)| + i;
    } else {
      p := FlattenHolds(table, n - 1, t, i);
    }
  }

  lemma KeyOfChunk(j: Job, i: nat)
    requires WellFormed(j) && i < |j.chunks|
    ensures ChunkKey(j.chunks[i]) == ChunkId(j.documentId, i)
  {
    hide ChunkId, SummaryId;
    assert WellFormedChunk(j, i);
  }

  /** Chunk ids in the flattened table are unique. */
  lemma FlattenUnique(table: seq<Job>)
    requires GoodTable(table)
    ensures UniqueKeys(Flatten(table, |table|), ChunkKey)
  {
    hide ChunkId, WellFormed;
    var flat := Flatten(table, |table|);
    forall p, q | 0 <= p < q < |flat|
      ensures ChunkKey(flat[p]) != ChunkKey(flat[q])
    {
      var t, i := FlattenAt(table, |table|, p);
      var u, j := FlattenAt(table, |table|, q);
      KeyOfChunk(table[t], i);
      KeyOfChunk(table[u], j);
      if ChunkKey(flat[p]) == ChunkKey(flat[q]) {
        SamePlace(table, t, i, u, j);
      }
    }
  }

  lemma SamePlace(table: seq<Job>, t: nat, i: nat, u: nat, j: nat)
    requires GoodTable(table) && t < |table| && u < |table|
    requires ChunkId(table[t].documentId, i) == ChunkId(table[u].documentId, j)
    ensures t == u && i == j
  {
    ChunkIdInjective(table[t].documentId, i, table[u].documentId, j);
    assert JobKey(table[t]) == JobKey(table[u]);
  }

  // ---------------------------------------------------------------- one chunk write on the flattened table

  /** Under unique keys an upsert rewrites each row on its own. */
  lemma RowRewritten(current: seq<Chunk>, batch: seq<Chunk>, p: nat)
    requires UniqueKeys(current, ChunkKey) && p < |current|
    ensures p < |Upserted(current, batch, ChunkKey)|
    ensures ChunkKey(current[p]) !in KeysOf(batch, ChunkKey) ==> Upserted(current, batch, ChunkKey)[p] == current[p]
    ensures forall i :: 0 <= i < |batch| && UniqueKeys(batch, ChunkKey) && ChunkKey(batch[i]) == ChunkKey(current[p]) ==>
              Upserted(current, batch, ChunkKey)[p] == batch[i]
  {
    hide Patched, KeysUpTo, LastAt, Appended, Upserted, UniqueKeys;
    UpsertedAt(current, batch, ChunkKey, p);
    PatchedValue(current, batch, ChunkKey, p);
    forall i | 0 <= i < |batch| && UniqueKeys(batch, ChunkKey) && ChunkKey(batch[i]) == ChunkKey(current[p])
      ensures Upserted(current, batch, ChunkKey)[p] == batch[i]
    {
      LastOfUnique(batch, ChunkKey, i);
    }
  }

  lemma JobKeysUnique(j: Job)
    requires WellFormed(j)
    ensures UniqueKeys(j.chunks, ChunkKey)
  {
    hide ChunkId, WellFormed;
    forall a, b | 0 <= a < b < |j.chunks|
      ensures ChunkKey(j.chunks[a]) != ChunkKey(j.chunks[b])
    {
      KeyOfChunk(j, a);
      KeyOfChunk(j, b);
      if ChunkId(j.documentId, a) == ChunkId(j.documentId, b) { ChunkIdInjective(j.documentId, a, j.documentId, b); }
    }
  }

  lemma ForeignKey(j: Job, o: Job, i: nat)
    requires WellFormed(j) && WellFormed(o) && j.documentId != o.documentId && i < |o.chunks|
    ensures ChunkKey(o.chunks[i]) !in KeysOf(j.chunks, ChunkKey)
  {
    hide ChunkId, WellFormed, KeysUpTo, LastAt;
    KeyOfChunk(o, i);
    if ChunkKey(o.chunks[i]) in KeysOf(j.chunks, ChunkKey) {
      var k := FindKey(j.chunks, ChunkKey, |j.chunks|, ChunkKey(o.chunks[i]));
      KeyOfChunk(j, k);
      ChunkIdInjective(o.documentId, i, j.documentId, k);
    }
  }

  /** What the table holds at position p after job j replaced its document's entry. */
  function Replaced(table: seq<Job>, j: Job): seq<Job> {
    seq(|table|, t requires 0 <= t < |table| => if table[t].documentId == j.documentId then j else table[t])
  }

  lemma {:induction false} FlattenReplacedLength(table: seq<Job>, j: Job, n: nat)
    requires n <= |table|
    requires forall t :: 0 <= t < |table| && table[t].documentId == j.documentId ==> |table[t].chunks| == |j.chunks|
    ensures |Flatten(Replaced(table, j), n)| == |Flatten(table, n)|
  {
    if n > 0 { FlattenReplacedLength(table, j, n - 1); }
  }

  lemma {:induction false} FlattenIndex(table: seq<Job>, n: nat, t: nat, i: nat)
    requires t < n <= |table| && i < |table[t].chunks|
    ensures |Flatten(table, t)| + i < |Flatten(table, n)|
    ensures Flatten(table, n)[|Flatten(table, t)| + i] == table[t].chunks[i]
  {
    if t < n - 1 { FlattenIndex(table, n - 1, t, i); }
  }

  /** Position by position, the upsert of a job's chunks rewrites exactly its document's stretch. */
  lemma StretchRewritten(table: seq<Job>, j: Job, p: nat)
    requires GoodTable(table) && WellFormed(j) && p < |Flatten(table, |table|)|
    requires forall t :: 0 <= t < |table| && table[t].documentId == j.documentId ==> |table[t].chunks| == |j.chunks|
    ensures p < |Flatten(Replaced(table, j), |table|)| && p < |Upserted(Flatten(table, |table|), j.chunks, ChunkKey)|
    ensures Upserted(Flatten(table, |table|), j.chunks, ChunkKey)[p] == Flatten(Replaced(table, j), |table|)[p]
  {
    hide WellFormed, ChunkId, KeysOf, Upserted, Flatten, UniqueKeys;
    var flat, next := Flatten(table, |table|), Replaced(table, j);
    FlattenUnique(table);
    JobKeysUnique(j);
    RowRewritten(flat, j.chunks, p);
    var t, i := FlattenAt(table, |table|, p);
    FlattenReplacedLength(table, j, t);
    FlattenIndex(next, |table|, t, i);
    KeyOfChunk(table[t], i);
    if table[t].documentId == j.documentId {
      KeyOfChunk(j, i);
    } else {
      ForeignKey(j, table[t], i);
    }
  }

  lemma {:induction false} AllPresentAppendsNothing(current: seq<Chunk>, batch: seq<Chunk>, n: nat)
    requires n <= |batch| && forall i :: 0 <= i < |batch| ==> ChunkKey(batch[i]) in KeysOf(current, ChunkKey)
    ensures Appended(current, batch, ChunkKey, n) == []
  {
    hide KeysUpTo;
    if n > 0 { AllPresentAppendsNothing(current, batch, n - 1); }
  }

  lemma {:induction false} NonePresentAppendsAll(current: seq<Chunk>, batch: seq<Chunk>, n: nat)
    requires n <= |batch| && forall i :: 0 <= i < |batch| ==> ChunkKey(batch[i]) !in KeysOf(current, ChunkKey)
    ensures Appended(current, batch, ChunkKey, n) == batch[..n]
  {
    hide KeysUpTo;
    if n > 0 { NonePresentAppendsAll(current, batch, n - 1); }
  }

  lemma StoredKey(table: seq<Job>, j: Job, i: nat)
    requires GoodTable(table) && WellFormed(j) && i < |j.chunks|
    requires forall t :: 0 <= t < |table| && table[t].documentId == j.documentId ==> |table[t].chunks| == |j.chunks|
    ensures ChunkKey(j.chunks[i]) in KeysOf(Flatten(table, |table|), ChunkKey) <==> j.documentId in KeysOf(table, JobKey)
  {
    hide ChunkId, WellFormed, KeysUpTo, LastAt, Flatten, UniqueKeys;
    var flat := Flatten(table, |table|);
    KeyOfChunk(j, i);
    if j.documentId in KeysOf(table, JobKey) {
      var t := FindKey(table, JobKey, |table|, j.documentId);
      KeyOfChunk(table[t], i);
      var p := FlattenHolds(table, |table|, t, i);
      KeyAtPosition(flat, ChunkKey, p);
    }
    if ChunkKey(j.chunks[i]) in KeysOf(flat, ChunkKey) {
      var p := FindKey(flat, ChunkKey, |flat|, ChunkKey(j.chunks[i]));
      var t, k := FlattenAt(table, |table|, p);
      KeyOfChunk(table[t], k);
      ChunkIdInjective(j.documentId, i, table[t].documentId, k);
      KeyAtPosition(table, JobKey, t);
    }
  }

  lemma TableUpserted(table: seq<Job>, j: Job)
    requires UniqueKeys(table, JobKey)
    ensures Upserted(table, [j], JobKey) == Replaced(table, j) + if j.documentId in KeysOf(table, JobKey) then [] else [j]
  {
    hide KeysUpTo, LastAt;
    assert Appended(table, [j], JobKey, 1) == Appended(table, [j], JobKey, 0) + if JobKey(j) in KeysOf(table, JobKey) then [] else [j];
    forall t | 0 <= t < |table|
      ensures Patched(table, [j], JobKey, 1)[t] == Replaced(table, j)[t]
    {
      PatchedBySingle(table, j, t);
    }
    assert Patched(table, [j], JobKey, 1) == Replaced(table, j);
  }

  lemma PatchedBySingle(table: seq<Job>, j: Job, t: nat)
    requires UniqueKeys(table, JobKey) && t < |table|
    ensures Patched(table, [j], JobKey, 1)[t] == if table[t].documentId == j.documentId then j else table[t]
  {
    PatchedValue(table, [j], JobKey, t);
    assert KeysUpTo([j], JobKey, 1) == {j.documentId};
  }

  lemma FlattenAppend(table: seq<Job>, j: Job)
    ensures Flatten(table + [j], |table| + 1) == Flatten(table, |table|) + j.chunks
  {
    FlattenPrefix(table + [j], table, |table|);
  }

  lemma {:induction false} FlattenPrefix(a: seq<Job>, b: seq<Job>, n: nat)
    requires n <= |a| && n <= |b| && forall t :: 0 <= t < n ==> a[t] == b[t]
    ensures Flatten(a, n) == Flatten(b, n)
  {
    if n > 0 { FlattenPrefix(a, b, n - 1); }
  }

  lemma UpsertedPrefix(table: seq<Job>, j: Job)
    requires GoodTable(table) && WellFormed(j)
    requires forall t :: 0 <= t < |table| && table[t].documentId == j.documentId ==> |table[t].chunks| == |j.chunks|
    ensures var rows := Upserted(Flatten(table, |table|), j.chunks, ChunkKey);
            |Flatten(table, |table|)| <= |rows| && rows[..|Flatten(table, |table|)|] == Flatten(Replaced(table, j), |table|)
  {
    hide GoodTable, WellFormed, Upserted, Flatten;
    var flat, rows := Flatten(table, |table|), Upserted(Flatten(table, |table|), j.chunks, ChunkKey);
    UpsertedLength(flat, j.chunks, ChunkKey);
    FlattenReplacedLength(table, j, |table|);
    forall p | 0 <= p < |flat|
      ensures rows[p] == Flatten(Replaced(table, j), |table|)[p]
    {
      StretchRewritten(table, j, p);
    }
  }

  /** The step: upserting a job's chunks into the flattened table flattens the upserted table. */
  lemma ChunkWriteRefines(table: seq<Job>, j: Job)
    requires GoodTable(table) && WellFormed(j)
    requires forall t :: 0 <= t < |table| && table[t].documentId == j.documentId ==> |table[t].chunks| == |j.chunks|
    ensures var next := Upserted(table, [j], JobKey);
            Upserted(Flatten(table, |table|), j.chunks, ChunkKey) == Flatten(next, |next|)
  {
    hide WellFormed, UniqueKeys, Upserted, Flatten, KeysOf, Replaced;
    var flat := Flatten(table, |table|);
    TableUpserted(table, j);
    UpsertedPrefix(table, j);
    forall i | 0 <= i < |j.chunks|
      ensures ChunkKey(j.chunks[i]) in KeysOf(flat, ChunkKey) <==> j.documentId in KeysOf(table, JobKey)
    {
      StoredKey(table, j, i);
    }
    TailOfUpsert(flat, j.chunks);
    var next := Replaced(table, j);
    ReplacedLength(table, j);
    if j.documentId in KeysOf(table, JobKey) {
      AllPresentAppendsNothing(flat, j.chunks, |j.chunks|);
      assert next + [] == next;
    } else {
      NonePresentAppendsAll(flat, j.chunks, |j.chunks|);
      FlattenAppend(next, j);
    }
  }

  lemma ReplacedLength(table: seq<Job>, j: Job)
    ensures |Replaced(table, j)| == |table|
  {
  }

  lemma TailOfUpsert(current: seq<Chunk>, batch: seq<Chunk>)
    ensures |current| <= |Upserted(current, batch, ChunkKey)|
    ensures Upserted(current, batch, ChunkKey)
         == Upserted(current, batch, ChunkKey)[..|current|] + Appended(current, batch, ChunkKey, |batch|)
  {
  }

  // ---------------------------------------------------------------- runs

  ghost predicate FromRun(events: seq<Event>, n: nat, j: Job)
    requires n <= |events|
  {
    exists p :: 0 <= p < n && events[p] == StoreChunks(j)
  }

  lemma {:induction false} TableFromRun(events: seq<Event>, n: nat, t: nat)
    requires n <= |events| && t < |TableAfter(events, n)| && forall m :: 0 <= m <= n ==> UniqueKeys(TableAfter(events, m), JobKey)
    ensures FromRun(events, n, TableAfter(events, n)[t])
  {
    hide UniqueKeys, Upserted;
    if n > 0 {
      var before := TableAfter(events, n - 1);
      match events[n - 1]
      case StoreSummary(_) =>
        TableFromRun(events, n - 1, t);
      case StoreChunks(job) =>
        TableUpserted(before, job);
        if t < |before| { TableFromRun(events, n - 1, t); }
    }
  }

  lemma {:induction false} TableUnique(events: seq<Event>, n: nat)
    requires n <= |events|
    ensures UniqueKeys(TableAfter(events, n), JobKey)
  {
    hide Upserted;
    if n > 0 {
      TableUnique(events, n - 1);
      if events[n - 1].StoreChunks? {
        var before := TableAfter(events, n - 1);
        DistinctBatchAppendsDistinct(before, [events[n - 1].job], JobKey, 1);
        UniqueAfterUpsert(before, [events[n - 1].job], JobKey);
      }
    }
  }

  lemma TableGood(events: seq<Event>, n: nat)
    requires n <= |events| && WellFormedRun(events)
    ensures GoodTable(TableAfter(events, n))
    ensures forall t :: 0 <= t < |TableAfter(events, n)| ==> FromRun(events, n, TableAfter(events, n)[t])
  {
    hide UniqueKeys, WellFormed;
    forall m | 0 <= m <= n
      ensures UniqueKeys(TableAfter(events, m), JobKey)
    {
      TableUnique(events, m);
    }
    forall t | 0 <= t < |TableAfter(events, n)|
      ensures FromRun(events, n, TableAfter(events, n)[t]) && WellFormed(TableAfter(events, n)[t])
    {
      TableFromRun(events, n, t);
    }
  }

  /**
   * Refinement, for every interleaving: the stored chunks are, document after document in order of
   * first completion, exactly the chunks of the last job completed for that document.
   */
  lemma {:induction false} StoreRefinesTable(events: seq<Event>, n: nat)
    requires n <= |events| && WellFormedRun(events) && Compatible(events)
    ensures ChunksAfter(events, n) == Flatten(TableAfter(events, n), |TableAfter(events, n)|)
  {
    hide Upserted, GoodTable, WellFormed;
    if n > 0 {
      StoreRefinesTable(events, n - 1);
      if events[n - 1].StoreChunks? {
        var table, job := TableAfter(events, n - 1), events[n - 1].job;
        TableGood(events, n - 1);
        forall t | 0 <= t < |table| && table[t].documentId == job.documentId
          ensures |table[t].chunks| == |job.chunks|
        {
          assert FromRun(events, n - 1, table[t]);
        }
        assert WellFormed(job);
        ChunkWriteRefines(table, job);
      }
    }
  }

  /** The last completed job of a document is the one the table holds. */
  lemma {:induction false} LastJobWins(events: seq<Event>, n: nat, p: nat)
    requires p < n <= |events| && events[p].StoreChunks?
    requires forall q :: p < q < n && events[q].StoreChunks? ==> events[q].job.documentId != events[p].job.documentId
    ensures var d := events[p].job.documentId;
            d in KeysOf(TableAfter(events, n), JobKey) && Lookup(TableAfter(events, n), JobKey, d) == events[p].job
  {
    hide Upserted, UniqueKeys, KeysOf, Lookup;
    if p < n - 1 { LastJobWins(events, n - 1, p); }
    if events[n - 1].StoreChunks? {
      TableUnique(events, n - 1);
      SingletonLookup(events[n - 1].job, events[p].job.documentId);
      UpsertRefinesMap(TableAfter(events, n - 1), [events[n - 1].job], JobKey, events[p].job.documentId);
    }
  }

  lemma SingletonLookup(j: Job, d: string)
    ensures UniqueKeys([j], JobKey)
    ensures d in KeysOf([j], JobKey) <==> d == j.documentId
    ensures d == j.documentId ==> Lookup([j], JobKey, d) == j
  {
    assert KeysUpTo([j], JobKey, 1) == {j.documentId};
  }

  /** Chunk ids are unique at every moment of every run, compatible or not. */
  lemma {:induction false} ChunkIdsUnique(events: seq<Event>, n: nat)
    requires n <= |events| && WellFormedRun(events)
    ensures UniqueKeys(ChunksAfter(events, n), ChunkKey)
  {
    hide Upserted, WellFormed, UniqueKeys;
    if n == 0 {
      NoRowsUnique();
    } else {
      ChunkIdsUnique(events, n - 1);
      if events[n - 1].StoreChunks? {
        var before, batch := ChunksAfter(events, n - 1), events[n - 1].job.chunks;
        assert WellFormed(events[n - 1].job);
        JobKeysUnique(events[n - 1].job);
        DistinctBatchAppendsDistinct(before, batch, ChunkKey, |batch|);
        UniqueAfterUpsert(before, batch, ChunkKey);
      }
    }
  }

  lemma NoRowsUnique()
    ensures UniqueKeys([], ChunkKey)
  {
  }

  /** Document d is stored completely: exactly the indices 0..count−1, all written by one job. */
  ghost predicate Complete(chunks: seq<Chunk>, d: string) {
    exists count: nat :: CompleteWith(chunks, d, count)
  }

  ghost predicate CompleteWith(chunks: seq<Chunk>, d: string, count: nat) {
    && (forall c :: c in chunks && c.documentId == d ==> 0 <= c.chunkIndex < count && c.chunkCount == count)
    && (forall i :: 0 <= i < count ==> HasIndex(chunks, d, i))
  }

  ghost predicate HasIndex(chunks: seq<Chunk>, d: string, i: int) {
    exists c :: c in chunks && c.documentId == d && c.chunkIndex == i
  }

  lemma ChunkOfFlat(table: seq<Job>, c: Chunk) returns (t: nat, i: nat)
    requires GoodTable(table) && c in Flatten(table, |table|)
    ensures t < |table| && i < |table[t].chunks| && table[t].chunks[i] == c
    ensures WellFormedChunk(table[t], i)
  {
    hide ChunkId, SummaryId, UniqueKeys, WellFormedChunk;
    var flat := Flatten(table, |table|);
    var p :| 0 <= p < |flat| && flat[p] == c;
    t, i := FlattenAt(table, |table|, p);
  }

  /** A document in the table is stored with its job's chunks. */
  lemma StoredDocument(table: seq<Job>, t: nat)
    requires GoodTable(table) && t < |table|
    ensures CompleteWith(Flatten(table, |table|), table[t].documentId, |table[t].chunks|)
  {
    hide ChunkId, SummaryId, Flatten;
    var flat, job := Flatten(table, |table|), table[t];
    forall c | c in flat && c.documentId == job.documentId
      ensures 0 <= c.chunkIndex < |job.chunks| && c.chunkCount == |job.chunks|
    {
      var u, i := ChunkOfFlat(table, c);
      assert JobKey(table[u]) == JobKey(table[t]);
    }
    forall i | 0 <= i < |job.chunks|
      ensures HasIndex(flat, job.documentId, i)
    {
      var p := FlattenHolds(table, |table|, t, i);
      assert WellFormedChunk(job, i);
      assert flat[p] in flat;
    }
  }

  /** The job of event p has written its chunks before moment n. */
  ghost predicate Completed(events: seq<Event>, n: nat, p: nat)
    requires n <= |events|
  {
    p < n && events[p].StoreChunks?
  }

  /**
   * At moment n document d is intact: every job completed for it finds all its indices stored and no
   * other, and without a completed job nothing of it is stored.
   */
  ghost predicate Intact(events: seq<Event>, n: nat, d: string)
    requires n <= |events|
  {
    && (forall p: nat :: Completed(events, n, p) && events[p].job.documentId == d ==>
          CompleteWith(ChunksAfter(events, n), d, |events[p].job.chunks|))
    && ((forall p: nat :: Completed(events, n, p) ==> events[p].job.documentId != d) ==>
          forall c :: c in ChunksAfter(events, n) ==> c.documentId != d)
  }

  lemma {:induction false} CompletedInTable(events: seq<Event>, n: nat, p: nat)
    requires n <= |events| && Completed(events, n, p)
    ensures events[p].job.documentId in KeysOf(TableAfter(events, n), JobKey)
  {
    hide Upserted;
    if p < n - 1 { CompletedInTable(events, n - 1, p); }
    if events[n - 1].StoreChunks? {
      var before, batch := TableAfter(events, n - 1), [events[n - 1].job];
      KeyAtPosition(batch, JobKey, 0);
      UpsertedKeys(before, batch, JobKey, events[p].job.documentId);
    }
  }

  /** Every run whose jobs of one document agree on their chunk count keeps every document intact at every moment. */
  lemma RunKeepsDocumentsComplete(events: seq<Event>, n: nat, d: string)
    requires n <= |events| && WellFormedRun(events) && Compatible(events)
    ensures Intact(events, n, d)
  {
    hide GoodTable, Flatten, WellFormedRun, CompleteWith, KeysUpTo, TableAfter, ChunksAfter;
    var table := TableAfter(events, n);
    StoreRefinesTable(events, n);
    TableGood(events, n);
    forall p: nat | Completed(events, n, p) && events[p].job.documentId == d
      ensures CompleteWith(ChunksAfter(events, n), d, |events[p].job.chunks|)
    {
      CompletedInTable(events, n, p);
      var t := FindKey(table, JobKey, |table|, d);
      StoredDocument(table, t);
      var q :| 0 <= q < n && events[q] == StoreChunks(table[t]);
      assert events[q].job.documentId == events[p].job.documentId;
    }
    forall c | c in ChunksAfter(events, n) && forall p: nat :: Completed(events, n, p) ==> events[p].job.documentId != d
      ensures c.documentId != d
    {
      StoredByRun(events, n, c);
    }
  }

  /** A stored chunk belongs to the document of some completed job. */
  lemma StoredByRun(events: seq<Event>, n: nat, c: Chunk)
    requires n <= |events| && WellFormedRun(events) && c in ChunksAfter(events, n)
    ensures exists p: nat :: Completed(events, n, p) && events[p].job.documentId == c.documentId
  {
    hide ChunkId, SummaryId, ChunksAfter;
    ChunkFromRun(events, n, c);
    var p :| 0 <= p < n && events[p].StoreChunks? && c in events[p].job.chunks;
    var i :| 0 <= i < |events[p].job.chunks| && events[p].job.chunks[i] == c;
    assert WellFormed(events[p].job) && WellFormedChunk(events[p].job, i);
    assert Completed(events, n, p);
  }

  // ---------------------------------------------------------------- summaries

  lemma {:induction false} SummariesUnique(events: seq<Event>, n: nat)
    requires n <= |events|
    ensures UniqueKeys(SummariesAfter(events, n), SummaryKey)
  {
    hide Upserted;
    if n > 0 {
      SummariesUnique(events, n - 1);
      if events[n - 1].StoreSummary? {
        var before := SummariesAfter(events, n - 1);
        DistinctBatchAppendsDistinct(before, [events[n - 1].job.summary], SummaryKey, 1);
        UniqueAfterUpsert(before, [events[n - 1].job.summary], SummaryKey);
      }
    }
  }

  lemma {:induction false} SummaryStays(events: seq<Event>, n: nat, p: nat)
    requires p < n <= |events| && events[p].StoreSummary?
    ensures events[p].job.summary.summaryId in KeysOf(SummariesAfter(events, n), SummaryKey)
  {
    hide Upserted;
    if p < n - 1 { SummaryStays(events, n - 1, p); }
    if events[n - 1].StoreSummary? {
      var before, batch := SummariesAfter(events, n - 1), [events[n - 1].job.summary];
      KeyAtPosition(batch, SummaryKey, 0);
      UpsertedKeys(before, batch, SummaryKey, events[p].job.summary.summaryId);
    }
  }

  /** A row of an upserted table was there before or came with the batch. */
  lemma UpsertedOrigin<T>(current: seq<T>, batch: seq<T>, key: T -> string, r: T)
    requires r in Upserted(current, batch, key)
    ensures r in current || r in batch
  {
    hide LastAt, KeysUpTo, Appended;
    var rows := Upserted(current, batch, key);
    var p :| 0 <= p < |rows| && rows[p] == r;
    if p < |current| {
      assert rows[p] == PatchedRow(current, batch, key, |batch|, p);
    } else {
      AppendedKeys(current, batch, key, |batch|, r);
    }
  }

  lemma {:induction false} SummaryNamesDocument(events: seq<Event>, n: nat, s: Summary)
    requires n <= |events| && WellFormedRun(events) && s in SummariesAfter(events, n)
    ensures s.summaryId == SummaryId(s.documentId)
  {
    hide Upserted, SummaryId, WellFormedChunk;
    match events[n - 1]
    case StoreSummary(job) =>
      UpsertedOrigin(SummariesAfter(events, n - 1), [job.summary], SummaryKey, s);
      if s in SummariesAfter(events, n - 1) {
        SummaryNamesDocument(events, n - 1, s);
      } else {
        assert WellFormed(events[n - 1].job);
      }
    case StoreChunks(_) => SummaryNamesDocument(events, n - 1, s);
  }

  lemma {:induction false} ChunkFromRun(events: seq<Event>, n: nat, c: Chunk)
    requires n <= |events| && c in ChunksAfter(events, n)
    ensures exists p :: 0 <= p < n && events[p].StoreChunks? && c in events[p].job.chunks
  {
    hide Upserted;
    match events[n - 1]
    case StoreSummary(_) => ChunkFromRun(events, n - 1, c);
    case StoreChunks(job) =>
      UpsertedOrigin(ChunksAfter(events, n - 1), job.chunks, ChunkKey, c);
      if c in ChunksAfter(events, n - 1) {
        ChunkFromRun(events, n - 1, c);
      } else {
        assert events[n - 1].StoreChunks? && c in events[n - 1].job.chunks;
      }
  }

  /**
   * In every state of every run, compatible or not, a stored chunk names its own document's summary
   * and that summary is stored.
   */
  lemma ChunkHasSummary(events: seq<Event>, n: nat, c: Chunk)
    requires n <= |events| && WellFormedRun(events) && Ordered(events) && c in ChunksAfter(events, n)
    ensures c.summaryId == SummaryId(c.documentId)
    ensures c.summaryId in KeysOf(SummariesAfter(events, n), SummaryKey)
  {
    hide SummaryId, ChunkId, KeysOf;
    ChunkFromRun(events, n, c);
    var p :| 0 <= p < n && events[p].StoreChunks? && c in events[p].job.chunks;
    var job := events[p].job;
    var i :| 0 <= i < |job.chunks| && job.chunks[i] == c;
    assert WellFormed(job) && WellFormedChunk(job, i);
    var q :| 0 <= q < p && events[q] == StoreSummary(job);
    SummaryStays(events, n, q);
  }

  // ---------------------------------------------------------------- the store executes runs

  /** One step of a run on the store itself. */
  method Perform(store: MemoryStore, cfg: Config, event: Event, ghost events: seq<Event>)
    requires store.SummariesIn(cfg.summaryCollection) == SummariesAfter(events, |events|)
    requires store.ChunksIn(cfg.chunkCollection) == ChunksAfter(events, |events|)
    modifies store
    ensures store.SummariesIn(cfg.summaryCollection) == SummariesAfter(events + [event], |events| + 1)
    ensures store.ChunksIn(cfg.chunkCollection) == ChunksAfter(events + [event], |events| + 1)
  {
    hide Upserted;
    RunPrefix(events, events + [event], |events|);
    match event
    case StoreSummary(job) => store.UpsertSummaries(cfg.summaryCollection, [job.summary]);
    case StoreChunks(job) => store.UpsertChunks(cfg.chunkCollection, job.chunks);
  }

  lemma {:induction false} RunPrefix(a: seq<Event>, b: seq<Event>, n: nat)
    requires n <= |a| && n <= |b| && forall p :: 0 <= p < n ==> a[p] == b[p]
    ensures SummariesAfter(a, n) == SummariesAfter(b, n) && ChunksAfter(a, n) == ChunksAfter(b, n)
  {
    hide Upserted;
    if n > 0 { RunPrefix(a, b, n - 1); }
  }

  // ---------------------------------------------------------------- compatibility is exactly what is needed

  /** Two jobs of one document with different chunk counts can leave a torn document behind. */
  lemma IncompatibleJobsTear(a: Job, b: Job) returns (events: seq<Event>)
    requires WellFormed(a) && WellFormed(b) && a.documentId == b.documentId && |a.chunks| > |b.chunks|
    ensures WellFormedRun(events) && Ordered(events)
    ensures OnlyJobs(events, a, b) && Completed(events, |events|, 1)
    ensures !Complete(ChunksAfter(events, |events|), a.documentId)
  {
    hide Upserted, ChunkId, SummaryId, KeysOf;
    events := [StoreSummary(a), StoreChunks(a), StoreSummary(b), StoreChunks(b)];
    assert events[0] == StoreSummary(events[1].job) && events[2] == StoreSummary(events[3].job);
    FirstWrite(events, a);
    assert ChunksAfter(events, 3) == ChunksAfter(events, 2) == a.chunks;
    assert ChunksAfter(events, 4) == Upserted(a.chunks, b.chunks, ChunkKey);
    MixedCounts(a, b);
  }

  ghost predicate OnlyJobs(events: seq<Event>, a: Job, b: Job) {
    forall p :: 0 <= p < |events| ==> events[p].job == a || events[p].job == b
  }

  /** Two jobs of one document: it stays complete in every run exactly when they have equally many chunks. */
  lemma CompleteIffSameCount(a: Job, b: Job)
    requires WellFormed(a) && WellFormed(b) && a.documentId == b.documentId
    ensures (forall events :: Ordered(events) && OnlyJobs(events, a, b) ==> Intact(events, |events|, a.documentId))
        <==> |a.chunks| == |b.chunks|
  {
    hide Complete, WellFormed, ChunksAfter, Ordered, Intact;
    if |a.chunks| > |b.chunks| {
      var events := IncompatibleJobsTear(a, b);
      TornIsNotIntact(events, 1);
    } else if |b.chunks| > |a.chunks| {
      var events := IncompatibleJobsTear(b, a);
      TornIsNotIntact(events, 1);
    } else {
      forall events | Ordered(events) && OnlyJobs(events, a, b)
        ensures Intact(events, |events|, a.documentId)
      {
        RunKeepsDocumentsComplete(events, |events|, a.documentId);
      }
    }
  }

  lemma TornIsNotIntact(events: seq<Event>, p: nat)
    requires Completed(events, |events|, p) && !Complete(ChunksAfter(events, |events|), events[p].job.documentId)
    ensures !Intact(events, |events|, events[p].job.documentId)
  {
    hide CompleteWith, ChunksAfter;
  }

  /** After the smaller job overwrote the larger one, chunks of both counts remain. */
  lemma MixedCounts(a: Job, b: Job)
    requires WellFormed(a) && WellFormed(b) && a.documentId == b.documentId && |a.chunks| > |b.chunks|
    ensures !Complete(Upserted(a.chunks, b.chunks, ChunkKey), a.documentId)
  {
    hide Upserted, ChunkId, SummaryId, KeysOf;
    var after := Upserted(a.chunks, b.chunks, ChunkKey);
    JobKeysUnique(a);
    JobKeysUnique(b);
    KeyOfChunk(a, 0);
    KeyOfChunk(b, 0);
    RowRewritten(a.chunks, b.chunks, 0);
    TailKeySurvives(a, b);
    RowRewritten(a.chunks, b.chunks, |b.chunks|);
    assert WellFormedChunk(b, 0) && WellFormedChunk(a, |b.chunks|);
    assert after[0] in after && after[|b.chunks|] in after;
  }

  lemma FirstWrite(events: seq<Event>, a: Job)
    requires |events| >= 2 && events[0] == StoreSummary(a) && events[1] == StoreChunks(a)
    ensures ChunksAfter(events, 2) == a.chunks
  {
    hide Upserted;
    assert ChunksAfter(events, 1) == ChunksAfter(events, 0) == [];
    NonePresentAppendsAll([], a.chunks, |a.chunks|);
    TailOfUpsert([], a.chunks);
    assert a.chunks[..|a.chunks|] == a.chunks;
    assert [] + a.chunks == a.chunks;
  }

  lemma TailKeySurvives(a: Job, b: Job)
    requires WellFormed(a) && WellFormed(b) && a.documentId == b.documentId && |a.chunks| > |b.chunks|
    ensures ChunkKey(a.chunks[|b.chunks|]) !in KeysOf(b.chunks, ChunkKey)
  {
    hide ChunkId, WellFormed, KeysUpTo, LastAt;
    var i := |b.chunks|;
    KeyOfChunk(a, i);
    if ChunkKey(a.chunks[i]) in KeysOf(b.chunks, ChunkKey) {
      var k := FindKey(b.chunks, ChunkKey, |b.chunks|, ChunkKey(a.chunks[i]));
      KeyOfChunk(b, k);
      ChunkIdInjective(a.documentId, i, b.documentId, k);
    }
  }
}
