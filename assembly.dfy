/** Assembly of one output document from a chunk and the context generated
    for it. */
module Assembly {
  import opened Js

  /** The metadata keys every output document sets, over any base metadata
      key of the same name. */
  const ENRICHMENT_KEYS: set<string> := {"chunkIndex", "originalChunk", "hasContext", "context"}

  /** A LangChain `Document`: page content and a metadata record. */
  datatype Document = Document(pageContent: string, metadata: Record)

  /** The document for chunk number `chunkIndex` of an item whose metadata is
      `itemMetadata`. An empty context leaves the chunk bare; the metadata key
      `context` is then `undefined`, which serialisation drops. */
  function Assemble(itemMetadata: Record, chunkIndex: nat, chunk: string, context: string,
                    prefix: string, separator: string): (d: Document)
    ensures context != "" ==> d.pageContent == prefix + context + separator + chunk
    ensures context == "" ==> d.pageContent == chunk
    ensures d.pageContent[|d.pageContent| - |chunk|..] == chunk
    ensures d.pageContent != chunk <==> context != ""
    ensures d.metadata.Keys == itemMetadata.Keys + ENRICHMENT_KEYS
    ensures forall k :: k in itemMetadata && k !in ENRICHMENT_KEYS ==> d.metadata[k] == itemMetadata[k]
    ensures d.metadata["chunkIndex"] == Num(chunkIndex)
    ensures d.metadata["originalChunk"] == Str(chunk)
    ensures d.metadata["hasContext"] == Bool(context != "")
    ensures d.metadata["context"] == if context != "" then Str(context) else Undefined
  {
    var content := if context != "" then prefix + context + separator + chunk else chunk;
    Document(content,
             itemMetadata["chunkIndex" := Num(chunkIndex)]
                         ["originalChunk" := Str(chunk)]
                         ["hasContext" := Bool(context != "")]
                         ["context" := if context != "" then Str(context) else Undefined])
  }

  /** The page content a document's own metadata implies under the given
      prefix and separator; `None` when the metadata lacks the fields. */
  function ContentFromMetadata(m: Record, prefix: string, separator: string): Option<string>
  {
    if "originalChunk" in m && m["originalChunk"].Str? && "context" in m then
      var chunk := m["originalChunk"].s;
      Some(if Truthy(m["context"]) && m["context"].Str?
           then prefix + m["context"].s + separator + chunk
           else chunk)
    else None
  }

  /** The metadata records everything the content is made of: the content
      can be rebuilt from `originalChunk` and `context`, and `hasContext`
      says whether the content differs from the chunk. */
  lemma MetadataDeterminesContent(itemMetadata: Record, chunkIndex: nat, chunk: string, context: string,
                                  prefix: string, separator: string)
    ensures var d := Assemble(itemMetadata, chunkIndex, chunk, context, prefix, separator);
      && ContentFromMetadata(d.metadata, prefix, separator) == Some(d.pageContent)
      && (d.metadata["hasContext"] == Bool(true) <==> d.pageContent != d.metadata["originalChunk"].s)
  {
  }
}
