/** The records the mock retrieval layer works with, shared by both versions
    of `lib/rag-utils.ts`: a document chunk with its metadata, the source
    reference a response cites, and the response itself. The optional
    `embedding` field is never set and is not part of the model. */
module Chunks {

  datatype Metadata = Metadata(source: string, page: nat)

  datatype DocumentChunk = DocumentChunk(id: string, content: string, metadata: Metadata)

  /** `{ title, page }`: where a piece of an answer comes from. */
  datatype Source = Source(title: string, page: nat)

  /** `{ text, sources }`: what the answer and cheat-sheet generators return. */
  datatype Response = Response(text: string, sources: seq<Source>)

  /** `chunk => ({ title: chunk.metadata.source, page: chunk.metadata.page })` */
  function SourceOf(chunk: DocumentChunk): Source
  {
    Source(chunk.metadata.source, chunk.metadata.page)
  }

  /** `chunks.map(SourceOf)`: one source per chunk, in the same order. */
  function SourcesOf(chunks: seq<DocumentChunk>): (r: seq<Source>)
    ensures |r| == |chunks|
    ensures forall i :: 0 <= i < |chunks| ==>
      r[i].title == chunks[i].metadata.source && r[i].page == chunks[i].metadata.page
    decreases |chunks|
  {
    if chunks == [] then [] else [SourceOf(chunks[0])] + SourcesOf(chunks[1..])
  }

  /** `chunks.map(chunk => chunk.content)` */
  function ContentsOf(chunks: seq<DocumentChunk>): (r: seq<string>)
    ensures |r| == |chunks|
    ensures forall i :: 0 <= i < |chunks| ==> r[i] == chunks[i].content
    decreases |chunks|
  {
    if chunks == [] then [] else [chunks[0].content] + ContentsOf(chunks[1..])
  }

  /** Mapping distributes over concatenation. */
  lemma ContentsOfAppend(a: seq<DocumentChunk>, b: seq<DocumentChunk>)
    ensures ContentsOf(a + b) == ContentsOf(a) + ContentsOf(b)
  {
  }
}
