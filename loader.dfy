/** The loader's entry point, `supplyData`: it checks that a language model
    and a text splitter are connected, resolves the options, and then
    resolves, splits and enriches every input item in turn, the documents of
    all items concatenated in input order. */
module Loader {
  import opened Js
  import opened ContextGenerator
  import opened Assembly
  import opened Items
  import opened Batching
  import opened Blocks

  // Option defaults
  const DEFAULT_PREFIX := "Context: "
  const DEFAULT_SEPARATOR := "\n\n"
  const DEFAULT_BATCH_SIZE := 10
  const DEFAULT_MAX_RETRIES := 3

  /** The node's options collection: `None` for an option left unset. */
  datatype Options = Options(contextPrefix: Option<string>, contextSeparator: Option<string>,
                             metadata: Option<string>, batchSize: Option<int>, maxRetries: Option<int>)

  /** The three errors `supplyData` raises. */
  datatype LoadError = NoLanguageModel | NoTextSplitter | InvalidMetadataJson

  /** The resolved options and the parsed base metadata. */
  datatype Config = Config(settings: Settings, metadata: Json)

  /** `textSplitter.splitText`, applied to the item's resolved text as is. */
  type Splitter = Json -> seq<string>

  /** `JSON.parse`: `None` where it throws. */
  type Parser = string -> Option<Json>

  /** `if (options.metadata)`: the metadata option is set and not empty. */
  predicate MetadataGiven(options: Options)
  {
    options.metadata.Some? && options.metadata.value != ""
  }

  /** The checks and option handling before the item loop. The model is
      checked first, then the splitter, then the metadata JSON; unset options
      take their defaults through `??`, so an option set to "" or 0 is kept. */
  function ResolveConfig(hasModel: bool, hasSplitter: bool, contextPrompt: string,
                         options: Options, parse: Parser): (r: Result<Config, LoadError>)
    ensures !hasModel ==> r == Err(NoLanguageModel)
    ensures hasModel && !hasSplitter ==> r == Err(NoTextSplitter)
    ensures r == Err(InvalidMetadataJson)
        <==> hasModel && hasSplitter && MetadataGiven(options) && parse(options.metadata.value).None?
    ensures r.Ok? <==> hasModel && hasSplitter && !(MetadataGiven(options) && parse(options.metadata.value).None?)
    ensures r.Ok? ==> r.value.settings.contextPrompt == contextPrompt
    ensures r.Ok? && options.contextPrefix.Some? ==> r.value.settings.prefix == options.contextPrefix.value
    ensures r.Ok? && options.contextPrefix.None? ==> r.value.settings.prefix == DEFAULT_PREFIX
    ensures r.Ok? && options.contextSeparator.Some? ==> r.value.settings.separator == options.contextSeparator.value
    ensures r.Ok? && options.contextSeparator.None? ==> r.value.settings.separator == DEFAULT_SEPARATOR
    ensures r.Ok? && options.batchSize.Some? ==> r.value.settings.batchSize == options.batchSize.value
    ensures r.Ok? && options.batchSize.None? ==> r.value.settings.batchSize == DEFAULT_BATCH_SIZE
    ensures r.Ok? && options.maxRetries.Some? ==> r.value.settings.maxRetries == options.maxRetries.value
    ensures r.Ok? && options.maxRetries.None? ==> r.value.settings.maxRetries == DEFAULT_MAX_RETRIES
    ensures r.Ok? && MetadataGiven(options) ==> Some(r.value.metadata) == parse(options.metadata.value)
    ensures r.Ok? && !MetadataGiven(options) ==> r.value.metadata == Obj(map[])
  {
    if !hasModel then Err(NoLanguageModel)
    else if !hasSplitter then Err(NoTextSplitter)
    else
      var settings := Settings(contextPrompt,
                               Coalesce(options.contextPrefix, DEFAULT_PREFIX),
                               Coalesce(options.contextSeparator, DEFAULT_SEPARATOR),
                               Coalesce(options.batchSize, DEFAULT_BATCH_SIZE),
                               Coalesce(options.maxRetries, DEFAULT_MAX_RETRIES));
      if MetadataGiven(options) then
        match parse(options.metadata.value)
        case None => Err(InvalidMetadataJson)
        case Some(m) => Ok(Config(settings, m))
      else Ok(Config(settings, Obj(map[])))
  }

  /** With no option set, the prefix is "Context: ", the separator a blank
      line, windows hold 10 chunks, each chunk gets 3 attempts, and the base
      metadata is empty. */
  lemma DefaultConfig(contextPrompt: string, parse: Parser)
    ensures ResolveConfig(true, true, contextPrompt, Options(None, None, None, None, None), parse)
         == Ok(Config(Settings(contextPrompt, "Context: ", "\n\n", 10, 3), Obj(map[])))
  {
  }

  /** Everything a run depends on once the configuration is resolved: the
      settings, the connected model and splitter, `JSON.stringify`, and the
      base metadata `{...metadata}` that every item copies. */
  datatype Run = Run(settings: Settings, model: Model, splitter: Splitter,
                     stringify: Record -> string, base: Record)

  /** The run that a resolved configuration and the connected model and
      splitter give. */
  function RunOf(cfg: Config, model: Model, splitter: Splitter, stringify: Record -> string): Run
  {
    Run(cfg.settings, model, splitter, stringify, Spread(cfg.metadata))
  }

  /** The resolved text of item `i`. */
  function ItemText(run: Run, items: seq<Record>, i: nat): Json
    requires i < |items|
  {
    ResolvedText(items[i], run.stringify)
  }

  /** The chunks of item `i`. */
  function ItemChunks(run: Run, items: seq<Record>, i: nat): seq<string>
    requires i < |items|
  {
    run.splitter(ItemText(run, items, i))
  }

  /** The batch loop ends for every item: the batch size is positive, or no
      item has chunks. With a batch size of 0 or less and a chunk to
      process, `j += batchSize` never reaches the end and the loader does not
      return. */
  predicate Terminates(run: Run, items: seq<Record>)
  {
    run.settings.batchSize >= 1 || forall i :: 0 <= i < |items| ==> ItemChunks(run, items, i) == []
  }

  /** The documents of item `i`. */
  function ItemDocuments(run: Run, items: seq<Record>, i: nat): seq<Document>
    requires i < |items| && Terminates(run, items)
  {
    ItemDocs(run.settings, run.model, i, ItemText(run, items, i),
             ItemMetadata(run.base, items[i]), ItemChunks(run, items, i))
  }

  /** The chunks of every item, item by item. */
  function AllChunks(run: Run, items: seq<Record>): seq<seq<string>>
  {
    seq(|items|, i requires 0 <= i < |items| => ItemChunks(run, items, i))
  }

  /** The documents of every item, item by item. */
  function ItemBlocks(run: Run, items: seq<Record>): seq<seq<Document>>
    requires Terminates(run, items)
  {
    seq(|items|, i requires 0 <= i < |items| => ItemDocuments(run, items, i))
  }

  /** What a run returns: the documents of all items, in input order. */
  function Output(run: Run, items: seq<Record>): seq<Document>
    requires Terminates(run, items)
  {
    Flatten(ItemBlocks(run, items))
  }

  /** The inputs for which `supplyData` returns at all. */
  predicate Admissible(items: seq<Record>, model: Option<Model>, splitter: Option<Splitter>,
                       stringify: Record -> string, contextPrompt: string, options: Options, parse: Parser)
  {
    var r := ResolveConfig(model.Some?, splitter.Some?, contextPrompt, options, parse);
    r.Ok? ==> Terminates(RunOf(r.value, model.value, splitter.value, stringify), items)
  }

  /** What `supplyData` returns: an error, or the documents of all items. */
  function Supply(items: seq<Record>, model: Option<Model>, splitter: Option<Splitter>,
                  stringify: Record -> string, contextPrompt: string, options: Options, parse: Parser)
    : Result<seq<Document>, LoadError>
    requires Admissible(items, model, splitter, stringify, contextPrompt, options, parse)
  {
    match ResolveConfig(model.Some?, splitter.Some?, contextPrompt, options, parse)
    case Err(e) => Err(e)
    case Ok(cfg) =>
      var run := RunOf(cfg, model.value, splitter.value, stringify);
      Ok(Output(run, items))
  }

  /** `supplyData(itemIndex)` over the input items `items`. */
  method SupplyData(items: seq<Record>, model: Option<Model>, splitter: Option<Splitter>,
                    stringify: Record -> string, contextPrompt: string, options: Options, parse: Parser)
    returns (r: Result<seq<Document>, LoadError>)
    requires Admissible(items, model, splitter, stringify, contextPrompt, options, parse)
    ensures r == Supply(items, model, splitter, stringify, contextPrompt, options, parse)
  {
    if model.None? {
      return Err(NoLanguageModel);
    }
    if splitter.None? {
      return Err(NoTextSplitter);
    }
    var contextPrefix := Coalesce(options.contextPrefix, DEFAULT_PREFIX);
    var contextSeparator := Coalesce(options.contextSeparator, DEFAULT_SEPARATOR);
    var batchSize := Coalesce(options.batchSize, DEFAULT_BATCH_SIZE);
    var maxRetries := Coalesce(options.maxRetries, DEFAULT_MAX_RETRIES);
    var metadata: Json := Obj(map[]);
    if MetadataGiven(options) {
      var parsed := parse(options.metadata.value);
      if parsed.None? {
        return Err(InvalidMetadataJson);
      }
      metadata := parsed.value;
    }
    var settings := Settings(contextPrompt, contextPrefix, contextSeparator, batchSize, maxRetries);
    var cfg := Config(settings, metadata);
    assert ResolveConfig(true, true, contextPrompt, options, parse) == Ok(cfg);
    ghost var run := RunOf(cfg, model.value, splitter.value, stringify);
    var documents: seq<Document> := [];
    for i := 0 to |items|
      invariant documents == Flatten(ItemBlocks(run, items)[..i])
    {
      var text, itemMetadata := ResolveItem(items[i], Spread(metadata), stringify);
      var chunks := splitter.value(text);
      assert chunks == ItemChunks(run, items, i);
      var contextualChunks, _ := EnrichItem(settings, model.value, i, text, itemMetadata, chunks);
      FlattenPush(ItemBlocks(run, items), i);
      documents := documents + contextualChunks;
    }
    assert ItemBlocks(run, items)[..|items|] == ItemBlocks(run, items);
    r := Ok(documents);
  }

  /** Item `i` yields one document per chunk, so the documents before item
      `i` are as many as the chunks before it. */
  lemma BlockSizes(run: Run, items: seq<Record>, i: nat)
    requires Terminates(run, items) && i <= |items|
    ensures Offset(ItemBlocks(run, items), i) == Offset(AllChunks(run, items), i)
  {
    OffsetsAgree(ItemBlocks(run, items), AllChunks(run, items), i);
  }

  /** One document per chunk: a run yields as many documents as its items
      have chunks between them. */
  lemma DocsCount(run: Run, items: seq<Record>)
    requires Terminates(run, items)
    ensures |Output(run, items)| == Offset(AllChunks(run, items), |items|)
  {
    FlattenLength(ItemBlocks(run, items));
    BlockSizes(run, items, |items|);
  }

  /** Documents are ordered by item, then by chunk: chunk `k` of item `i`
      sits at the number of chunks of the items before it plus `k`, and its
      document is the one built for that chunk with `chunkIndex` k, counted
      afresh for every item. */
  lemma DocsPosition(run: Run, items: seq<Record>, i: nat, k: nat)
    requires Terminates(run, items)
    requires i < |items| && k < |ItemChunks(run, items, i)|
    ensures Offset(AllChunks(run, items), i) + k < |Output(run, items)|
    ensures Output(run, items)[Offset(AllChunks(run, items), i) + k]
         == ChunkDoc(run.settings, run.model, i, ItemText(run, items, i),
                     ItemMetadata(run.base, items[i]), ItemChunks(run, items, i)[k], k)
  {
    FlattenPosition(ItemBlocks(run, items), i, k);
    BlockSizes(run, items, i);
  }

  /** Every document comes from one chunk: position `p` is chunk `k` of item
      `i` for some `i` and `k`. */
  lemma DocsDecompose(run: Run, items: seq<Record>, p: nat) returns (i: nat, k: nat)
    requires Terminates(run, items) && p < |Output(run, items)|
    ensures i < |items| && k < |ItemChunks(run, items, i)| && p == Offset(AllChunks(run, items), i) + k
    ensures Output(run, items)[p]
         == ChunkDoc(run.settings, run.model, i, ItemText(run, items, i),
                     ItemMetadata(run.base, items[i]), ItemChunks(run, items, i)[k], k)
  {
    var blocks := ItemBlocks(run, items);
    FlattenOrigin(blocks, p);
    i :| 0 <= i < |blocks| && Offset(blocks, i) <= p < Offset(blocks, i) + |blocks[i]|;
    k := p - Offset(blocks, i);
    BlockSizes(run, items, i);
    DocsPosition(run, items, i, k);
  }

  /** The enrichment never overwrites the fields copied from the item. */
  lemma SourceKeyNotEnriched(key: string)
    requires key in SOURCE_KEYS
    ensures key !in ENRICHMENT_KEYS
  {
  }

  /** The metadata of chunk `k` of item `i`: its index within the item, the
      chunk itself, the item's `source`, `fileName` and `fileType` where
      truthy, and every base metadata key that no later field overrides. */
  lemma DocumentMetadata(run: Run, items: seq<Record>, i: nat, k: nat)
    requires Terminates(run, items) && i < |items| && k < |ItemChunks(run, items, i)|
    ensures Offset(AllChunks(run, items), i) + k < |Output(run, items)|
    ensures var d := Output(run, items)[Offset(AllChunks(run, items), i) + k];
      && Get(d.metadata, "chunkIndex") == Num(k)
      && Get(d.metadata, "originalChunk") == Str(ItemChunks(run, items, i)[k])
      && (forall key :: key in SOURCE_KEYS && Truthy(Get(items[i], key)) ==> Get(d.metadata, key) == items[i][key])
      && (forall key :: key in run.base && key !in ENRICHMENT_KEYS && !(key in SOURCE_KEYS && Truthy(Get(items[i], key)))
            ==> Get(d.metadata, key) == run.base[key])
  {
    DocsPosition(run, items, i, k);
    var m := ItemMetadata(run.base, items[i]);
    var chunk := ItemChunks(run, items, i)[k];
    var d := ChunkDoc(run.settings, run.model, i, ItemText(run, items, i), m, chunk, k);
    ItemMetadataFields(run.base, items[i]);
    ChunkDocMetadata(run.settings, run.model, i, ItemText(run, items, i), m, chunk, k);
    forall key | key in SOURCE_KEYS && Truthy(Get(items[i], key))
      ensures Get(d.metadata, key) == items[i][key]
    {
      SourceKeyNotEnriched(key);
    }
  }

  /** A model whose every invocation is rejected leaves every chunk as it
      is: the content is the original chunk, `hasContext` is false and
      `context` is undefined. */
  lemma FailingModelKeepsChunks(run: Run, items: seq<Record>)
    requires Terminates(run, items)
    requires forall c :: run.model(c).Rejected?
    ensures var docs := Output(run, items);
      forall p :: 0 <= p < |docs| ==>
        && Get(docs[p].metadata, "originalChunk") == Str(docs[p].pageContent)
        && Get(docs[p].metadata, "hasContext") == Bool(false)
        && Get(docs[p].metadata, "context") == Undefined
  {
    var docs := Output(run, items);
    forall p | 0 <= p < |docs|
      ensures && Get(docs[p].metadata, "originalChunk") == Str(docs[p].pageContent)
              && Get(docs[p].metadata, "hasContext") == Bool(false)
              && Get(docs[p].metadata, "context") == Undefined
    {
      var i, k := DocsDecompose(run, items, p);
      ChunkDocWithoutContext(run.settings, run.model, i, ItemText(run, items, i),
                             ItemMetadata(run.base, items[i]), ItemChunks(run, items, i)[k], k);
    }
  }

  /** A model that always answers the same non-empty string, with at least
      one attempt allowed, puts the prefix, that answer and the separator in
      front of every chunk. */
  lemma ConstantModelPrefixesChunks(run: Run, items: seq<Record>, answer: string)
    requires Terminates(run, items)
    requires run.settings.maxRetries >= 1 && answer != ""
    requires forall c :: run.model(c) == Resolved(Str(answer))
    ensures var docs := Output(run, items);
      forall p :: 0 <= p < |docs| ==>
        && Get(docs[p].metadata, "originalChunk").Str?
        && docs[p].pageContent
           == run.settings.prefix + answer + run.settings.separator + Get(docs[p].metadata, "originalChunk").s
        && Get(docs[p].metadata, "hasContext") == Bool(true)
  {
    var docs := Output(run, items);
    forall p | 0 <= p < |docs|
      ensures && Get(docs[p].metadata, "originalChunk").Str?
              && docs[p].pageContent
                 == run.settings.prefix + answer + run.settings.separator + Get(docs[p].metadata, "originalChunk").s
              && Get(docs[p].metadata, "hasContext") == Bool(true)
    {
      var i, k := DocsDecompose(run, items, p);
      ChunkDocWithContext(run.settings, run.model, i, ItemText(run, items, i),
                          ItemMetadata(run.base, items[i]), ItemChunks(run, items, i)[k], k, answer);
    }
  }

  /** One item whose text "AAAA BBBB CCCC" splits into three chunks, a model
      answering "CTX" to every prompt, and no option set: three documents,
      "Context: CTX" and a blank line before each chunk, in chunk order. */
  lemma ThreeChunks(model: Model, splitter: Splitter, stringify: Record -> string,
                    contextPrompt: string, parse: Parser)
    requires splitter(Str("AAAA BBBB CCCC")) == ["AAAA", "BBBB", "CCCC"]
    requires forall c :: model(c) == Resolved(Str("CTX"))
    ensures var items := [map["text" := Str("AAAA BBBB CCCC")]];
      var options := Options(None, None, None, None, None);
      && Admissible(items, Some(model), Some(splitter), stringify, contextPrompt, options, parse)
      && var r := Supply(items, Some(model), Some(splitter), stringify, contextPrompt, options, parse);
      && r.Ok? && |r.value| == 3
      && r.value[0].pageContent == "Context: " + "CTX" + "\n\n" + "AAAA"
      && r.value[1].pageContent == "Context: " + "CTX" + "\n\n" + "BBBB"
      && r.value[2].pageContent == "Context: " + "CTX" + "\n\n" + "CCCC"
  {
    var items: seq<Record> := [map["text" := Str("AAAA BBBB CCCC")]];
    var options := Options(None, None, None, None, None);
    DefaultConfig(contextPrompt, parse);
    var run := RunOf(Config(Settings(contextPrompt, "Context: ", "\n\n", 10, 3), Obj(map[])),
                     model, splitter, stringify);
    ResolvedTextChain(items[0], stringify);
    var chunks := ["AAAA", "BBBB", "CCCC"];
    assert ItemChunks(run, items, 0) == chunks;
    DocsCount(run, items);
    assert Offset(AllChunks(run, items), 1) == 3;
    var docs := Output(run, items);
    forall k | 0 <= k < 3
      ensures docs[k].pageContent == "Context: " + "CTX" + "\n\n" + chunks[k]
    {
      DocsPosition(run, items, 0, k);
      ChunkDocWithContext(run.settings, model, 0, ItemText(run, items, 0),
                          ItemMetadata(run.base, items[0]), chunks[k], k, "CTX");
    }
    assert Supply(items, Some(model), Some(splitter), stringify, contextPrompt, options, parse) == Ok(docs);
  }
}
