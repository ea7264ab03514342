/**
  Text chunking, record building and batching for ingestion. The code is the
  same in backend/core/pipeline.py and backend/services/knowledge_base.py:
  `chunk_text` cuts a document into windows of `chunk_size` characters that
  start every `chunk_size - overlap` characters, each chunk becomes one
  record tagged with its document's source and its position, and the
  records are sent in consecutive batches of 50.
 */
module Chunking {

  const DefaultChunkSize := 1000
  const DefaultOverlap := 100
  const BatchSize := 50

  function Clamp(x: int, n: nat): (r: nat)
    ensures r <= n
    ensures 0 <= x <= n ==> r == x
  {
    if x < 0 then 0 else if x > n then n else x
  }

  /** Python's `s[i:j]`: negative bounds count from the end, and both bounds are clamped to the text. */
  function PySlice(s: string, i: int, j: int): (r: string)
    ensures 0 <= i <= j <= |s| ==> r == s[i..j]
    ensures 0 <= i <= |s| <= j ==> r == s[i..]
  {
    var lo := Clamp(if i < 0 then i + |s| else i, |s|);
    var hi := Clamp(if j < 0 then j + |s| else j, |s|);
    if lo < hi then s[lo..hi] else []
  }

  /** The chunks `chunk_text` produces once its loop has reached `start`. */
  function ChunksFrom(text: string, start: nat, chunkSize: int, overlap: int): seq<string>
    requires chunkSize > overlap
    decreases |text| - start
  {
    if start >= |text| then []
    else [PySlice(text, start, start + chunkSize)] + ChunksFrom(text, start + chunkSize - overlap, chunkSize, overlap)
  }

  /** The chunks of the whole text. */
  function Chunks(text: string, chunkSize: int, overlap: int): seq<string>
    requires chunkSize > overlap
  {
    ChunksFrom(text, 0, chunkSize, overlap)
  }

  /**
    `chunk_text`. Its loop ends only when every step moves `start` forward,
    that is when `chunk_size > overlap`; on any other arguments it never
    returns for a nonempty text.
   */
  method ChunkText(text: string, chunkSize: int, overlap: int) returns (chunks: seq<string>)
    requires chunkSize > overlap
    ensures chunks == Chunks(text, chunkSize, overlap)
  {
    chunks := [];
    var start: nat := 0;
    while start < |text|
      invariant chunks + ChunksFrom(text, start, chunkSize, overlap) == Chunks(text, chunkSize, overlap)
      decreases |text| - start
    {
      var end := start + chunkSize;
      chunks := chunks + [PySlice(text, start, end)];
      start := start + chunkSize - overlap;
    }
  }

  /** `ceil(a / b)` for a positive step `b`, counted one step at a time. */
  function CeilDiv(a: int, b: int): nat
    requires b > 0
    decreases if a > 0 then a else 0
  {
    if a <= 0 then 0 else 1 + CeilDiv(a - b, b)
  }

  /** `CeilDiv(a, b)` is the least count of steps of `b` that cover `a`. */
  lemma {:induction false} CeilDivBounds(a: nat, b: int)
    requires b > 0
    ensures CeilDiv(a, b) * b >= a
    ensures a > 0 ==> (CeilDiv(a, b) - 1) * b < a
    decreases a
  {
    if a > 0 {
      var c := CeilDiv(a - b, b);
      if a - b > 0 {
        CeilDivBounds(a - b, b);
      }
      assert (1 + c) * b == b + c * b;
      assert (1 + c - 1) * b == c * b;
    }
  }

  lemma {:induction false} ChunkCountFrom(text: string, start: nat, chunkSize: int, overlap: int)
    requires chunkSize > overlap
    ensures |ChunksFrom(text, start, chunkSize, overlap)| == CeilDiv(|text| - start, chunkSize - overlap)
    decreases |text| - start
  {
    if start < |text| {
      ChunkCountFrom(text, start + chunkSize - overlap, chunkSize, overlap);
    }
  }

  /**
    There are `ceil(len / (chunk_size - overlap))` chunks: the fewest steps
    that cover the text, so none for the empty text.
   */
  lemma ChunkCount(text: string, chunkSize: int, overlap: int)
    requires chunkSize > overlap
    ensures var c := |Chunks(text, chunkSize, overlap)|;
      c * (chunkSize - overlap) >= |text| && (text != [] ==> (c - 1) * (chunkSize - overlap) < |text|)
    ensures Chunks(text, chunkSize, overlap) == [] <==> text == []
  {
    ChunkCountFrom(text, 0, chunkSize, overlap);
    CeilDivBounds(|text|, chunkSize - overlap);
  }

  /** Where chunk `k` starts: `k` steps of `step` from the first. */
  function WindowStart(k: nat, step: nat): nat {
    if k == 0 then 0 else WindowStart(k - 1, step) + step
  }

  lemma {:induction false} WindowStartIsProduct(k: nat, step: nat)
    ensures WindowStart(k, step) == k * step
  {
    if k > 0 {
      WindowStartIsProduct(k - 1, step);
      assert k * step == (k - 1) * step + step;
    }
  }

  /** The end of the text or `n` characters on from `s`, whichever comes first. */
  function WindowEnd(text: string, s: nat, n: int): int {
    if s + n <= |text| then s + n else |text|
  }

  lemma {:induction false} ChunkAtFrom(text: string, start: nat, chunkSize: int, overlap: int, k: nat)
    requires 0 <= overlap < chunkSize
    requires k < |ChunksFrom(text, start, chunkSize, overlap)|
    ensures var s := start + WindowStart(k, chunkSize - overlap);
      s < |text| && ChunksFrom(text, start, chunkSize, overlap)[k] == text[s..WindowEnd(text, s, chunkSize)]
    decreases k
  {
    var step := chunkSize - overlap;
    if k > 0 {
      var chunks := ChunksFrom(text, start, chunkSize, overlap);
      var rest := ChunksFrom(text, start + step, chunkSize, overlap);
      assert chunks[k] == rest[k - 1];
      ChunkAtFrom(text, start + step, chunkSize, overlap, k - 1);
    }
  }

  /**
    Chunk `k` is the window `text[k*(chunk_size-overlap) : k*(chunk_size-overlap)+chunk_size]`,
    cut short only by the end of the text, so no chunk is empty or longer than `chunk_size`.
   */
  lemma ChunkAt(text: string, chunkSize: int, overlap: int, k: nat)
    requires 0 <= overlap < chunkSize
    requires k < |Chunks(text, chunkSize, overlap)|
    ensures var s := WindowStart(k, chunkSize - overlap);
      && s == k * (chunkSize - overlap)
      && s < |text| && Chunks(text, chunkSize, overlap)[k] == text[s..WindowEnd(text, s, chunkSize)]
    ensures 0 < |Chunks(text, chunkSize, overlap)[k]| <= chunkSize
  {
    ChunkAtFrom(text, 0, chunkSize, overlap, k);
    WindowStartIsProduct(k, chunkSize - overlap);
  }

  /** `chunk[overlap:]`: a chunk without the characters it shares with the one before. */
  function DropOverlap(chunk: string, overlap: nat): string {
    if overlap <= |chunk| then chunk[overlap..] else []
  }

  function JoinTails(chunks: seq<string>, overlap: nat): string {
    if chunks == [] then [] else DropOverlap(chunks[0], overlap) + JoinTails(chunks[1..], overlap)
  }

  /** The first chunk followed by every later chunk without its overlap. */
  function Reassemble(chunks: seq<string>, overlap: nat): string {
    if chunks == [] then [] else chunks[0] + JoinTails(chunks[1..], overlap)
  }

  /** A text not yet exhausted yields the window at `start`, then the chunks one step on. */
  lemma FirstChunk(text: string, start: nat, chunkSize: int, overlap: int)
    requires 0 <= overlap < chunkSize && start < |text|
    ensures ChunksFrom(text, start, chunkSize, overlap)
              == [text[start..WindowEnd(text, start, chunkSize)]] + ChunksFrom(text, start + chunkSize - overlap, chunkSize, overlap)
  {
  }

  lemma {:induction false} JoinTailsFrom(text: string, start: nat, chunkSize: int, overlap: nat)
    requires overlap < chunkSize
    ensures var from := if start + overlap <= |text| then start + overlap else |text|;
      JoinTails(ChunksFrom(text, start, chunkSize, overlap), overlap) == text[from..]
    decreases |text| - start
  {
    var next := start + chunkSize - overlap;
    if start < |text| {
      var end := WindowEnd(text, start, chunkSize);
      var from := if start + overlap <= |text| then start + overlap else |text|;
      var rest := ChunksFrom(text, next, chunkSize, overlap);
      calc {
        JoinTails(ChunksFrom(text, start, chunkSize, overlap), overlap);
        == { FirstChunk(text, start, chunkSize, overlap); }
        JoinTails([text[start..end]] + rest, overlap);
        == { JoinTailsCons(text[start..end], rest, overlap); }
        DropOverlap(text[start..end], overlap) + JoinTails(rest, overlap);
        == { DropOverlapOfWindow(text, start, chunkSize, overlap);
             JoinTailsFrom(text, next, chunkSize, overlap);
             assert (if next + overlap <= |text| then next + overlap else |text|) == end; }
        text[from..end] + text[end..];
        == 
        text[from..];
      }
    }
  }

  lemma JoinTailsCons(chunk: string, rest: seq<string>, overlap: nat)
    ensures JoinTails([chunk] + rest, overlap) == DropOverlap(chunk, overlap) + JoinTails(rest, overlap)
  {
    assert ([chunk] + rest)[1..] == rest;
  }

  /** Without its overlap, the window at `start` begins `overlap` characters on, or at the end of the text. */
  lemma DropOverlapOfWindow(text: string, start: nat, chunkSize: int, overlap: nat)
    requires overlap < chunkSize && start < |text|
    ensures var end := WindowEnd(text, start, chunkSize);
      var from := if start + overlap <= |text| then start + overlap else |text|;
      from <= end && DropOverlap(text[start..end], overlap) == text[from..end]
  {
  }

  /** Dropping the overlaps and concatenating gives back exactly the original text. */
  lemma Reconstruction(text: string, chunkSize: int, overlap: nat)
    requires overlap < chunkSize
    ensures Reassemble(Chunks(text, chunkSize, overlap), overlap) == text
  {
    if text != [] {
      var chunks := Chunks(text, chunkSize, overlap);
      JoinTailsFrom(text, chunkSize - overlap, chunkSize, overlap);
      assert chunks[1..] == ChunksFrom(text, chunkSize - overlap, chunkSize, overlap);
      var end := if chunkSize <= |text| then chunkSize else |text|;
      assert chunks[0] == text[..end];
      assert text == text[..end] + text[end..];
    }
  }

  /**
    The answer to the page request `GET /wiki/rest/api/content/{id}`: its
    status and, on success, the page title and the page body as plain text
    (HTML cleaning is library code and is not modelled).
   */
  datatype PageResponse = PageResponse(status: int, title: string, pageText: string)

  /** The `source` of a fetched page. */
  function PageSource(title: string): (source: string)
    ensures |source| == |"Confluence - "| + |title| && source[|"Confluence - "|..] == title
  {
    "Confluence - " + title
  }

  /** A fetched document: `{"source": ..., "content": ...}`. */
  datatype Document = Document(source: string, content: string)

  /** The metadata of one vector record; its random id and its embedding are not modelled. */
  datatype Record = Record(chunkText: string, source: string, chunkIndex: nat)

  /** The chunks of a document with the default window. */
  function DocChunks(doc: Document): seq<string> {
    Chunks(doc.content, DefaultChunkSize, DefaultOverlap)
  }

  /** The records of one document, in chunk order. */
  function DocRecords(doc: Document): seq<Record> {
    var chunks := DocChunks(doc);
    seq(|chunks|, i requires 0 <= i < |chunks| => Record(chunks[i], doc.source, i))
  }

  /** The records of all documents, document after document. */
  function RecordsOf(docs: seq<Document>): seq<Record> {
    if docs == [] then [] else RecordsOf(docs[..|docs| - 1]) + DocRecords(docs[|docs| - 1])
  }

  /**
    The record loop of `upload_to_pinecone`: one record per chunk, indexed by
    the chunk's position in its document and tagged with the document's source.
   */
  method BuildRecords(docs: seq<Document>) returns (records: seq<Record>)
    ensures records == RecordsOf(docs)
  {
    records := [];
    for d := 0 to |docs|
      invariant records == RecordsOf(docs[..d])
    {
      var doc := docs[d];
      var chunks := ChunkText(doc.content, DefaultChunkSize, DefaultOverlap);
      ghost var before := records;
      for i := 0 to |chunks|
        invariant records == before + DocRecords(doc)[..i]
      {
        records := records + [Record(chunks[i], doc.source, i)];
        assert DocRecords(doc)[..i + 1] == DocRecords(doc)[..i] + [Record(chunks[i], doc.source, i)];
      }
      assert docs[..d + 1][..d] == docs[..d];
      assert DocRecords(doc)[..|chunks|] == DocRecords(doc);
    }
    assert docs[..|docs|] == docs;
  }

  /** A document whose content is empty yields no record. */
  lemma EmptyDocumentHasNoRecords(source: string)
    ensures DocRecords(Document(source, "")) == []
  {
    ChunkCount("", DefaultChunkSize, DefaultOverlap);
  }

  /** `r` is the record of chunk `i` of one of the documents. */
  ghost predicate ComesFrom(r: Record, docs: seq<Document>) {
    exists d, i :: 0 <= d < |docs| && 0 <= i < |DocChunks(docs[d])| && r == Record(DocChunks(docs[d])[i], docs[d].source, i)
  }

  /**
    Every record is chunk `i` of some document, carries that document's
    source and has index `i`; there are as many records as chunks in all.
   */
  lemma {:induction false} RecordsProvenance(docs: seq<Document>)
    ensures forall j :: 0 <= j < |RecordsOf(docs)| ==> ComesFrom(RecordsOf(docs)[j], docs)
    ensures |RecordsOf(docs)| == ChunkTotal(docs)
  {
    if docs != [] {
      var init := docs[..|docs| - 1];
      var last := docs[|docs| - 1];
      RecordsProvenance(init);
      var rs := RecordsOf(docs);
      assert rs == RecordsOf(init) + DocRecords(last);
      assert |DocRecords(last)| == |DocChunks(last)|;
      forall j | 0 <= j < |rs|
        ensures ComesFrom(rs[j], docs)
      {
        if j < |RecordsOf(init)| {
          assert ComesFrom(RecordsOf(init)[j], init);
          var d, i :| 0 <= d < |init| && 0 <= i < |DocChunks(init[d])| &&
            RecordsOf(init)[j] == Record(DocChunks(init[d])[i], init[d].source, i);
          assert rs[j] == RecordsOf(init)[j] && docs[d] == init[d];
        } else {
          var i := j - |RecordsOf(init)|;
          assert rs[j] == DocRecords(last)[i] == Record(DocChunks(last)[i], last.source, i);
          var d := |docs| - 1;
          assert 0 <= d < |docs| && 0 <= i < |DocChunks(docs[d])| && rs[j] == Record(DocChunks(docs[d])[i], docs[d].source, i);
        }
      }
    }
  }

  /** The number of chunks of all documents together. */
  function ChunkTotal(docs: seq<Document>): nat {
    if docs == [] then 0 else ChunkTotal(docs[..|docs| - 1]) + |DocChunks(docs[|docs| - 1])|
  }

  /** The batches `records[i:i+size]` for `i` in `range(start, len(records), size)`. */
  function BatchesFrom<T>(s: seq<T>, start: nat, size: int): seq<seq<T>>
    requires size > 0
    decreases |s| - start
  {
    if start >= |s| then []
    else [s[start..if start + size <= |s| then start + size else |s|]] + BatchesFrom(s, start + size, size)
  }

  function Flatten<T>(batches: seq<seq<T>>): seq<T> {
    if batches == [] then [] else batches[0] + Flatten(batches[1..])
  }

  /** The batch loop of `upload_to_pinecone`: the batches handed to `upsert`, in order. */
  method Batch<T>(records: seq<T>, size: int) returns (batches: seq<seq<T>>)
    requires size > 0
    ensures batches == BatchesFrom(records, 0, size)
  {
    batches := [];
    var i: nat := 0;
    while i < |records|
      invariant batches + BatchesFrom(records, i, size) == BatchesFrom(records, 0, size)
      decreases |records| - i
    {
      var end := if i + size <= |records| then i + size else |records|;
      batches := batches + [records[i..end]];
      i := i + size;
    }
  }

  lemma {:induction false} BatchesFromShape<T>(s: seq<T>, start: nat, size: int)
    requires size > 0 && start <= |s|
    ensures Flatten(BatchesFrom(s, start, size)) == s[start..]
    ensures forall k :: 0 <= k < |BatchesFrom(s, start, size)| ==> 0 < |BatchesFrom(s, start, size)[k]| <= size
    ensures forall k :: 0 <= k < |BatchesFrom(s, start, size)| - 1 ==> |BatchesFrom(s, start, size)[k]| == size
    ensures |BatchesFrom(s, start, size)| == CeilDiv(|s| - start, size)
    decreases |s| - start
  {
    if start < |s| {
      var end := if start + size <= |s| then start + size else |s|;
      var next := if start + size <= |s| then start + size else |s|;
      BatchesFromShape(s, next, size);
      assert BatchesFrom(s, next, size) == BatchesFrom(s, start + size, size);
      var bs := BatchesFrom(s, start, size);
      assert bs[1..] == BatchesFrom(s, next, size);
      assert s[start..] == s[start..end] + s[end..];
      if start + size > |s| {
        assert CeilDiv(|s| - start - size, size) == 0;
      }
    }
  }

  /**
    The batches are consecutive slices that concatenate back to the records;
    each holds between one and `size` records, and every batch but the last
    holds exactly `size`. There are `ceil(len / size)` of them.
   */
  lemma BatchesShape<T>(s: seq<T>, size: int)
    requires size > 0
    ensures Flatten(BatchesFrom(s, 0, size)) == s
    ensures forall k :: 0 <= k < |BatchesFrom(s, 0, size)| ==> 0 < |BatchesFrom(s, 0, size)[k]| <= size
    ensures forall k :: 0 <= k < |BatchesFrom(s, 0, size)| - 1 ==> |BatchesFrom(s, 0, size)[k]| == size
    ensures var c := |BatchesFrom(s, 0, size)|; c * size >= |s| && (s != [] ==> (c - 1) * size < |s|)
  {
    BatchesFromShape(s, 0, size);
    CeilDivBounds(|s|, size);
    assert s[0..] == s;
  }
}
