/** The batch loop over one item's chunks. The chunks are walked in
    consecutive windows of `batchSize`; within a window every chunk gets its
    own context generation, and `Promise.all` places each result at its
    chunk's position, so a window's documents come out in chunk order. This
    module therefore runs the chunks of a window one after another. */
module Batching {
  import opened Js
  import opened ContextGenerator
  import opened Assembly
  import Prompt

  /** The resolved options that shape each chunk's document. */
  datatype Settings = Settings(contextPrompt: string, prefix: string, separator: string,
                               batchSize: int, maxRetries: int)

  /** One batch: the chunks with indices `start` to `end - 1`. */
  datatype Window = Window(start: nat, end: nat)

  function Min(a: int, b: int): int
  {
    if a < b then a else b
  }

  /** The windows the loop visits from `j` on. */
  function WindowsFrom(j: nat, n: nat, b: nat): seq<Window>
    requires b >= 1
    decreases if j < n then n - j else 0
  {
    if j >= n then [] else [Window(j, Min(j + b, n))] + WindowsFrom(j + b, n, b)
  }

  /** The windows for `n` chunks. A non-positive batch size is admitted only
      when there are no chunks, for then the loop does not run. */
  function Windows(n: nat, b: int): seq<Window>
    requires b >= 1 || n == 0
  {
    if n == 0 then [] else WindowsFrom(0, n, b)
  }

  lemma {:induction false} WindowsFromShape(j: nat, n: nat, b: nat)
    requires b >= 1
    ensures var w := WindowsFrom(j, n, b);
      && (|w| == 0 <==> j >= n)
      && (forall q :: 0 <= q < |w| ==> w[q].start == j + q * b && w[q].end == Min(w[q].start + b, n))
      && (forall q :: 0 <= q < |w| ==> w[q].start < w[q].end)
      && (forall q :: 0 <= q < |w| - 1 ==> w[q].end == w[q + 1].start)
      && (|w| > 0 ==> w[|w| - 1].end == n)
    decreases if j < n then n - j else 0
  {
    if j < n {
      WindowsFromShape(j + b, n, b);
      var w, rest := WindowsFrom(j, n, b), WindowsFrom(j + b, n, b);
      forall q | 1 <= q < |w| ensures w[q].start == j + q * b {
        assert w[q] == rest[q - 1];
        assert (j + b) + (q - 1) * b == j + q * b;
      }
    }
  }

  /** One turn of the loop moves one window from what is left to what is done. */
  lemma WindowsStep(done: seq<Window>, j: nat, n: nat, b: nat)
    requires b >= 1 && j < n
    ensures done + WindowsFrom(j, n, b) == (done + [Window(j, Min(j + b, n))]) + WindowsFrom(j + b, n, b)
  {
  }

  /** The windows partition the chunk indices 0 to n-1: they start at 0, each
      starts where the previous ended, the last ends at n, none is empty, and
      window q holds the chunks q·b to min(q·b + b, n) - 1. */
  lemma WindowsPartition(n: nat, b: int)
    requires b >= 1 || n == 0
    ensures var w := Windows(n, b);
      && (|w| == 0 <==> n == 0)
      && (|w| > 0 ==> w[0].start == 0 && w[|w| - 1].end == n)
      && (forall q :: 0 <= q < |w| ==> w[q].start == q * b && w[q].end == Min(q * b + b, n))
      && (forall q :: 0 <= q < |w| ==> w[q].start < w[q].end <= w[q].start + b)
      && (forall q :: 0 <= q < |w| - 1 ==> w[q].end == w[q + 1].start)
  {
    if n > 0 {
      WindowsFromShape(0, n, b);
      var w := WindowsFrom(0, n, b);
      forall q | 0 <= q < |w|
        ensures w[q].start == q * b && w[q].end == Min(q * b + b, n)
        ensures w[q].start < w[q].end <= w[q].start + b
      {
        assert w[q].start == 0 + q * b;
      }
    }
  }

  /** The document for chunk `k` of item number `item`, whose resolved text
      is `text` and whose metadata is `itemMetadata`. */
  function ChunkDoc(s: Settings, model: Model, item: nat, text: Json, itemMetadata: Record,
                    chunk: string, k: nat): Document
  {
    var prompt := Prompt.Build(JsString(text), chunk, s.contextPrompt);
    var g := Retry(model, Request(item, k, prompt), s.maxRetries);
    Assemble(itemMetadata, k, chunk, g.context, s.prefix, s.separator)
  }

  /** When every invocation of the model is rejected, the chunk keeps its
      text unchanged and its metadata records that it has no context. */
  lemma ChunkDocWithoutContext(s: Settings, model: Model, item: nat, text: Json, itemMetadata: Record,
                               chunk: string, k: nat)
    requires forall c :: model(c).Rejected?
    ensures var d := ChunkDoc(s, model, item, text, itemMetadata, chunk, k);
      && d.pageContent == chunk
      && d.metadata["originalChunk"] == Str(chunk)
      && d.metadata["hasContext"] == Bool(false)
      && d.metadata["context"] == Undefined
  {
    var req := Request(item, k, Prompt.Build(JsString(text), chunk, s.contextPrompt));
    RetryAllFail(model, req, s.maxRetries);
  }

  /** When every invocation answers the same non-empty string, the chunk is
      preceded by the prefix, that answer and the separator. */
  lemma ChunkDocWithContext(s: Settings, model: Model, item: nat, text: Json, itemMetadata: Record,
                            chunk: string, k: nat, answer: string)
    requires s.maxRetries >= 1 && answer != ""
    requires forall c :: model(c) == Resolved(Str(answer))
    ensures var d := ChunkDoc(s, model, item, text, itemMetadata, chunk, k);
      && d.pageContent == s.prefix + answer + s.separator + chunk
      && d.metadata["originalChunk"] == Str(chunk)
      && d.metadata["hasContext"] == Bool(true)
      && d.metadata["context"] == Str(answer)
  {
    var req := Request(item, k, Prompt.Build(JsString(text), chunk, s.contextPrompt));
    RetryFirstSuccess(model, req, s.maxRetries, 0);
  }

  /** The document of chunk `k` is numbered `k`, records the chunk, and keeps
      every metadata key of its item that the enrichment does not set. */
  lemma ChunkDocMetadata(s: Settings, model: Model, item: nat, text: Json, itemMetadata: Record,
                         chunk: string, k: nat)
    ensures var d := ChunkDoc(s, model, item, text, itemMetadata, chunk, k);
      && d.metadata["chunkIndex"] == Num(k)
      && d.metadata["originalChunk"] == Str(chunk)
      && forall key :: key in itemMetadata && key !in ENRICHMENT_KEYS ==> d.metadata[key] == itemMetadata[key]
  {
  }

  /** The documents of chunks `lo` to `hi - 1`, in chunk order. */
  function RangeDocs(s: Settings, model: Model, item: nat, text: Json, itemMetadata: Record,
                     chunks: seq<string>, lo: nat, hi: nat): seq<Document>
    requires lo <= hi <= |chunks|
  {
    seq(hi - lo, q requires 0 <= q < hi - lo => ChunkDoc(s, model, item, text, itemMetadata, chunks[lo + q], lo + q))
  }

  /** The documents of one item: one per chunk, in split order. */
  function ItemDocs(s: Settings, model: Model, item: nat, text: Json, itemMetadata: Record,
                    chunks: seq<string>): seq<Document>
  {
    RangeDocs(s, model, item, text, itemMetadata, chunks, 0, |chunks|)
  }

  /** Consecutive ranges concatenate: pushing a window's documents after the
      earlier ones yields the documents of both ranges. */
  lemma RangeDocsConcat(s: Settings, model: Model, item: nat, text: Json, itemMetadata: Record,
                        chunks: seq<string>, lo: nat, mid: nat, hi: nat)
    requires lo <= mid <= hi <= |chunks|
    ensures RangeDocs(s, model, item, text, itemMetadata, chunks, lo, mid)
          + RangeDocs(s, model, item, text, itemMetadata, chunks, mid, hi)
         == RangeDocs(s, model, item, text, itemMetadata, chunks, lo, hi)
  {
    var a := RangeDocs(s, model, item, text, itemMetadata, chunks, lo, mid);
    var b := RangeDocs(s, model, item, text, itemMetadata, chunks, mid, hi);
    var c := RangeDocs(s, model, item, text, itemMetadata, chunks, lo, hi);
    forall q | 0 <= q < |c| ensures (a + b)[q] == c[q] {
      if q >= |a| {
        assert (a + b)[q] == b[q - |a|];
        assert mid + (q - |a|) == lo + q;
      }
    }
  }

  lemma RangeDocsOne(s: Settings, model: Model, item: nat, text: Json, itemMetadata: Record,
                     chunks: seq<string>, k: nat)
    requires k < |chunks|
    ensures RangeDocs(s, model, item, text, itemMetadata, chunks, k, k + 1)
         == [ChunkDoc(s, model, item, text, itemMetadata, chunks[k], k)]
  {
  }

  /** An item with n chunks yields n documents; document k carries
      `chunkIndex` k and `originalChunk` equal to chunk k, ends with that
      chunk, and keeps every other metadata key of the item. */
  lemma ItemDocsIndexed(s: Settings, model: Model, item: nat, text: Json, itemMetadata: Record,
                        chunks: seq<string>)
    ensures var docs := ItemDocs(s, model, item, text, itemMetadata, chunks);
      && |docs| == |chunks|
      && forall k :: 0 <= k < |docs| ==>
           && docs[k].metadata["chunkIndex"] == Num(k)
           && docs[k].metadata["originalChunk"] == Str(chunks[k])
           && docs[k].pageContent[|docs[k].pageContent| - |chunks[k]|..] == chunks[k]
           && forall key :: key in itemMetadata && key !in ENRICHMENT_KEYS ==>
                docs[k].metadata[key] == itemMetadata[key]
  {
  }

  /** The callback mapped over a window: the retry loop for one chunk, then
      the assembly of its document. */
  method EnrichChunk(s: Settings, model: Model, item: nat, text: Json, itemMetadata: Record,
                     chunk: string, chunkIndex: nat)
    returns (doc: Document)
    ensures doc == ChunkDoc(s, model, item, text, itemMetadata, chunk, chunkIndex)
  {
    var prompt := Prompt.Build(JsString(text), chunk, s.contextPrompt);
    var context, _, _ := GenerateContext(model, Request(item, chunkIndex, prompt), s.maxRetries);
    doc := Assemble(itemMetadata, chunkIndex, chunk, context, s.prefix, s.separator);
  }

  /** One window: every chunk of `chunks[start..end]` gets its context and its
      document, and the results keep the chunks' order (the mapped batch
      awaited with `Promise.all`). */
  method EnrichWindow(s: Settings, model: Model, item: nat, text: Json, itemMetadata: Record,
                      chunks: seq<string>, start: nat, end: nat)
    returns (contextualChunks: seq<Document>)
    requires start <= end <= |chunks|
    ensures contextualChunks == RangeDocs(s, model, item, text, itemMetadata, chunks, start, end)
  {
    var batch := chunks[start..end];
    contextualChunks := [];
    for batchIndex := 0 to |batch|
      invariant contextualChunks == RangeDocs(s, model, item, text, itemMetadata, chunks, start, start + batchIndex)
    {
      var chunkIndex := start + batchIndex;
      var doc := EnrichChunk(s, model, item, text, itemMetadata, batch[batchIndex], chunkIndex);
      assert batch[batchIndex] == chunks[chunkIndex];
      RangeDocsConcat(s, model, item, text, itemMetadata, chunks, start, chunkIndex, chunkIndex + 1);
      RangeDocsOne(s, model, item, text, itemMetadata, chunks, chunkIndex);
      contextualChunks := contextualChunks + [doc];
    }
  }

  /** The batch loop for one item: windows of `batchSize` chunks, visited in
      order, their documents pushed after those of the earlier windows. */
  method EnrichItem(s: Settings, model: Model, item: nat, text: Json, itemMetadata: Record,
                    chunks: seq<string>)
    returns (docs: seq<Document>, windows: seq<Window>)
    requires s.batchSize >= 1 || chunks == []
    ensures docs == ItemDocs(s, model, item, text, itemMetadata, chunks)
    ensures windows == Windows(|chunks|, s.batchSize)
  {
    var n := |chunks|;
    var j := 0;
    docs, windows := [], [];
    while j < n
      invariant docs == RangeDocs(s, model, item, text, itemMetadata, chunks, 0, Min(j, n))
      invariant n > 0 ==> Windows(n, s.batchSize) == windows + WindowsFrom(j, n, s.batchSize)
      invariant n == 0 ==> windows == []
      decreases n - j
    {
      var end := Min(j + s.batchSize, n);
      var contextualChunks := EnrichWindow(s, model, item, text, itemMetadata, chunks, j, end);
      RangeDocsConcat(s, model, item, text, itemMetadata, chunks, 0, j, end);
      docs := docs + contextualChunks;
      WindowsStep(windows, j, n, s.batchSize);
      windows := windows + [Window(j, end)];
      j := j + s.batchSize;
    }
  }
}
