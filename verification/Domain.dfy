/** The records that ingestion, storage, retrieval and the agent exchange. */
module Domain {

  datatype Option<+T> = None | Some(value: T)

  datatype Result<+T> = Ok(value: T) | Err(message: string)

  /** A route name. The source keeps it as an open string, so any other name is representable. */
  datatype Route =
    | Direct
    | DirectChunk
    | Catalog
    | Hierarchical
    | Sql
    | Web
    | Hybrid
    | Skill
    | Unnamed
    | Other(name: string)

  datatype Chunk = Chunk(
    chunkId: string,
    documentId: string,
    summaryId: string,
    source: string,
    text: string,
    embedding: seq<real>,
    createdAt: int,
    chunkIndex: int,
    chunkCount: int,
    contentClass: string)

  datatype Summary = Summary(
    summaryId: string,
    documentId: string,
    source: string,
    text: string,
    embedding: seq<real>,
    createdAt: int,
    contentClass: string)

  datatype Candidate = Candidate(
    chunkId: string,
    documentId: string,
    summaryId: string,
    score: real,
    source: string,
    text: string,
    contentClass: string,
    layer: string)

  datatype Reference = Reference(
    documentId: string,
    chunkId: string,
    score: real,
    source: string,
    content: string)

  datatype Grade = Grade(relevant: bool, score: real)

  function ChunkKey(c: Chunk): string { c.chunkId }

  function SummaryKey(s: Summary): string { s.summaryId }

  function ScoreOf(c: Candidate): real { c.score }

  function ReferenceScore(r: Reference): real { r.score }

  /** The reference that cites a candidate. */
  function ReferenceTo(c: Candidate): Reference {
    Reference(c.documentId, c.chunkId, c.score, c.source, c.text)
  }

  function ReferencesTo(rows: seq<Candidate>): (refs: seq<Reference>)
    ensures |refs| == |rows|
    ensures forall i :: 0 <= i < |rows| ==> refs[i] == ReferenceTo(rows[i])
  {
    seq(|rows|, i requires 0 <= i < |rows| => ReferenceTo(rows[i]))
  }
}
