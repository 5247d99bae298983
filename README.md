# Contextual Document Loader — a Dafny model

This project models `supplyData` of n8n's Contextual Document Loader node
(`nodes/document_loaders/ContextualDocumentLoader/ContextualDocumentLoader.node.ts`).
The loader turns input items into LangChain `Document`s for retrieval. For
each item it:

- picks the item's text;
- seeds the item's metadata from a configured base plus the item's
  `source`, `fileName` and `fileType`;
- splits the text into chunks with the connected text splitter.

Then it walks the chunks in windows of `batchSize`. For every chunk, it asks
the connected language model for a short context situating the chunk in the
whole document. The model is invoked at most `maxRetries` times for a
chunk, so there are at most `maxRetries - 1` retries. After the k-th failed
attempt the loader waits 1000·k ms, except after the last permitted attempt,
where it gives up without waiting. The chunk becomes a document whose content
is `prefix + context + separator + chunk`, or the bare chunk when there is no
context. Its metadata records the chunk index, the original chunk and
whether a context was found. The documents of all items are returned in
input order. A missing model, a missing splitter or unparsable metadata JSON
is an error raised before any item is processed.

Modules, one per component of the loader:

- `Js` — the JavaScript values the loader handles (`Json`), truthiness,
  `String(v)` (integers in plain decimal), object spread `{...v}`, and `??` (`Coalesce`).
- `Prompt` — the fixed prompt wrapper around the document text and the chunk.
- `ContextGenerator` — the retry loop of one chunk: `GenerateContext`, a
  `while` loop proved against the loop-state function `RetryFrom`.
- `Assembly` — the document built from a chunk and its context.
- `Items` — text selection and metadata seeding for one item: `ResolveItem`,
  the source's if-chains, proved against `ResolvedText` and `ItemMetadata`.
- `Batching` — the window loop over one item's chunks: `EnrichItem`, which
  calls `EnrichWindow` for each window. `EnrichWindow` calls `EnrichChunk`,
  the mapped callback, for each chunk of the window. They are proved against
  `ItemDocs`, `RangeDocs` and `Windows`.
- `Blocks` — the output accumulator: a sequence built by pushing one block
  after another, and where each block's elements land.
- `Loader` — configuration (`ResolveConfig`), the item loop (`SupplyData`,
  proved against `Supply`), and the properties of a whole run.

Collaborators are parameters:

- The language model is a function from a `Call` (item index, chunk index,
  attempt number, prompt) to a `Reply` (`Rejected` or `Resolved(value)`).
  So any pattern of failures and answers over the attempts of a run can be
  expressed.
- The text splitter is a function from the resolved text to chunks.
- `JSON.stringify` and `JSON.parse` are functions; `JSON.parse` returns
  `None` where it would throw.
- The input items, the `contextPrompt` parameter and the options collection
  are arguments of `SupplyData`.
- A disconnected model or splitter is `None`.

Behaviours of the code worth knowing:

- The option `maxRetries` is described to the user as the "maximum number of
  retries for context generation" (line 103 of the node file), but the loop
  counts attempts: `maxRetries` 3 means at most three invocations, that is,
  two retries. `maxRetries <= 0` means the model is never invoked, and the
  chunk then has no context (`RetryCalls`).
- The instruction is always appended after the fixed wrapper. The code has
  no placeholder substitution.
- A document without context carries the metadata key `context` with the
  value `undefined`, which JSON serialisation drops. The key is not
  physically absent.
- The metadata option may be any JSON value. It is spread as is, so an array
  gives index keys and `null` or a number gives nothing (`Js.Spread`).
- A model reply of `null` or `undefined` makes `response.content` throw
  inside the `try`. It counts as a failed attempt and is retried. An empty
  answer ends the loop and is not retried.
- A reply whose `content` is not a string is converted with `toString()`.
  A chat model that answers with an array of content blocks therefore gives
  the context "[object Object]" for one block, and the document's content
  starts with "Context: [object Object]" (`ContentBlocksAsContext`).

## Model

| member | source | states |
|---|---|---|
| Js.Truthy | nodes/document_loaders/ContextualDocumentLoader/ContextualDocumentLoader.node.ts:188-208 | the definition of the test `if (v)`: `undefined`, `null`, `false`, 0 and "" are falsy, every other value is truthy; also used at :258 and :268 |
| Js.JsString | nodes/document_loaders/ContextualDocumentLoader/ContextualDocumentLoader.node.ts:227-241 | the definition of `String(v)`, as used by `${text}` in the prompt and by `content?.toString()`: strings as is, integers in plain decimal, arrays joined with ",", objects as "[object Object]" |
| Js.Spread | nodes/document_loaders/ContextualDocumentLoader/ContextualDocumentLoader.node.ts:186 | `{...v}` copies an object's fields; for an array or string, it puts the elements under the keys "0", "1", … and has no other key; it gives `{}` for `null`, `undefined`, booleans and numbers |
| Prompt.Build | nodes/document_loaders/ContextualDocumentLoader/ContextualDocumentLoader.node.ts:227-236 | the definition of the prompt template; its layout is stated by `BuildLayout` |
| Prompt.BuildLayout | nodes/document_loaders/ContextualDocumentLoader/ContextualDocumentLoader.node.ts:227-236 | the prompt is `<document>`, the whole text, `</document>`, the chunk announcement and `<chunk>`, the chunk, `</chunk>` and a blank line, then the instruction verbatim, at the stated offsets and with the stated length |
| Prompt.DistinctChunksDistinctPrompts | nodes/document_loaders/ContextualDocumentLoader/ContextualDocumentLoader.node.ts:227-236 | different chunks of one document always get different prompts |
| Prompt.DistinctTextsDistinctPrompts | nodes/document_loaders/ContextualDocumentLoader/ContextualDocumentLoader.node.ts:227-236 | the whole document text is carried: two different texts always give different prompts for the same chunk |
| ContextGenerator.ReplyText | nodes/document_loaders/ContextualDocumentLoader/ContextualDocumentLoader.node.ts:238-244 | an attempt fails exactly when the call rejects or the reply is `null`/`undefined`; a string reply is the context as is; an object's `content` is converted by `ContentText`, and an object without `content`, a boolean, a number or an array gives "" |
| ContextGenerator.ContentText | nodes/document_loaders/ContextualDocumentLoader/ContextualDocumentLoader.node.ts:241 | a missing or `null` `content` gives "", a string `content` is taken as is, and an object `content` gives "[object Object]" |
| ContextGenerator.ContentBlocksAsContext | nodes/document_loaders/ContextualDocumentLoader/ContextualDocumentLoader.node.ts:238-241 | a reply whose `content` is an array of one content block (an object) gives the context "[object Object]" |
| ContextGenerator.RetryFrom | nodes/document_loaders/ContextualDocumentLoader/ContextualDocumentLoader.node.ts:224-255 | the definition of the retry loop from attempt k on; its behaviour is stated by `RetryBound`, `RetryAllFailFrom` and `RetryFirstSuccessFrom` |
| ContextGenerator.Retry | nodes/document_loaders/ContextualDocumentLoader/ContextualDocumentLoader.node.ts:221-255 | the definition of one chunk's retry loop from attempt 0; its behaviour is stated by `RetryCalls`, `RetryAllFail` and `RetryFirstSuccess` |
| ContextGenerator.RetryBound | nodes/document_loaders/ContextualDocumentLoader/ContextualDocumentLoader.node.ts:221-255 | from attempt k on, the loop invokes the model at most up to attempt `maxRetries`, not at all once `k >= maxRetries`, and waits once fewer than it invokes |
| ContextGenerator.RetryCalls | nodes/document_loaders/ContextualDocumentLoader/ContextualDocumentLoader.node.ts:221-224 | a chunk's model is invoked at most `maxRetries` times, never when `maxRetries <= 0` (context then ""), and with one wait fewer than invocations |
| ContextGenerator.RetryAllFail | nodes/document_loaders/ContextualDocumentLoader/ContextualDocumentLoader.node.ts:244-253 | when every attempt fails: exactly `maxRetries` invocations (none when `maxRetries <= 0`), waits of 1000, 2000, …, 1000·(maxRetries-1) ms, and the context "" |
| ContextGenerator.RetryFirstSuccess | nodes/document_loaders/ContextualDocumentLoader/ContextualDocumentLoader.node.ts:238-253 | the first attempt j that completes ends the loop: its text is the context, j+1 invocations, waits of 1000, …, 1000·j ms |
| ContextGenerator.RetryFailThenSucceed | nodes/document_loaders/ContextualDocumentLoader/ContextualDocumentLoader.node.ts:224-255 | with `maxRetries` 2, a first attempt rejected and a second answered "X": context "X", two invocations, one wait of 1000 ms |
| ContextGenerator.GenerateContext | nodes/document_loaders/ContextualDocumentLoader/ContextualDocumentLoader.node.ts:221-255 | the loop's context, number of invocations and waits are those of the retry specification, and its invocations are attempts 0, 1, … of the chunk's prompt in order |
| Assembly.Assemble | nodes/document_loaders/ContextualDocumentLoader/ContextualDocumentLoader.node.ts:257-270 | the content is `prefix + context + separator + chunk` when the context is non-empty and the chunk otherwise, always ending with the chunk; the metadata has the item's keys plus `chunkIndex`, `originalChunk`, `hasContext`, `context`, keeps every other item key, and `hasContext` is true exactly when there is a context |
| Assembly.MetadataDeterminesContent | nodes/document_loaders/ContextualDocumentLoader/ContextualDocumentLoader.node.ts:257-270 | the content can be rebuilt from the document's own `originalChunk` and `context`, and `hasContext` holds exactly when the content differs from the chunk |
| Items.ResolvedText | nodes/document_loaders/ContextualDocumentLoader/ContextualDocumentLoader.node.ts:188-199 | the definition of an item's text; its meaning is stated by `ResolvedTextFirst` and `ResolvedTextChain` |
| Items.ItemMetadata | nodes/document_loaders/ContextualDocumentLoader/ContextualDocumentLoader.node.ts:186-210 | the definition of an item's metadata; its meaning is stated by `ItemMetadataFields` and `ItemMetadataSteps` |
| Items.FirstTruthyIsFirst | nodes/document_loaders/ContextualDocumentLoader/ContextualDocumentLoader.node.ts:188-195 | the search over fields finds a value exactly when some field is truthy, and the value found is the first truthy one |
| Items.ResolvedTextFirst | nodes/document_loaders/ContextualDocumentLoader/ContextualDocumentLoader.node.ts:188-199 | an item's text is its first truthy field among `text`, `content`, `document`, `data`, and the serialised item when none is truthy |
| Items.ResolvedTextChain | nodes/document_loaders/ContextualDocumentLoader/ContextualDocumentLoader.node.ts:188-199 | the first-truthy-field definition agrees with the source's if/else chain |
| Items.ItemMetadataFields | nodes/document_loaders/ContextualDocumentLoader/ContextualDocumentLoader.node.ts:186-210 | an item's metadata has the base keys plus its truthy `source`/`fileName`/`fileType`; those take the item's value, every other key keeps the base value |
| Items.ItemMetadataSteps | nodes/document_loaders/ContextualDocumentLoader/ContextualDocumentLoader.node.ts:202-210 | the item's metadata is the base updated by the three conditional assignments in order |
| Items.CopyFieldStep | nodes/document_loaders/ContextualDocumentLoader/ContextualDocumentLoader.node.ts:202-204 | one conditional assignment adds the field exactly when it is truthy |
| Items.ResolveItem | nodes/document_loaders/ContextualDocumentLoader/ContextualDocumentLoader.node.ts:185-210 | the statements of one item compute the resolved text and the seeded metadata |
| Batching.WindowsFromShape | nodes/document_loaders/ContextualDocumentLoader/ContextualDocumentLoader.node.ts:216-217 | the windows from j start at j, j+b, …; each ends at `min(start + b, n)`, is non-empty and starts where the previous ended, and the last ends at n |
| Batching.WindowsPartition | nodes/document_loaders/ContextualDocumentLoader/ContextualDocumentLoader.node.ts:216-217 | the windows partition chunks 0 … n-1 in order; window q is q·b up to min(q·b+b, n), so no window holds more than `batchSize` chunks |
| Batching.ChunkDoc | nodes/document_loaders/ContextualDocumentLoader/ContextualDocumentLoader.node.ts:219-271 | the definition of one chunk's document; its meaning is stated by `ChunkDocWithoutContext`, `ChunkDocWithContext` and `ChunkDocMetadata` |
| Batching.ChunkDocWithoutContext | nodes/document_loaders/ContextualDocumentLoader/ContextualDocumentLoader.node.ts:244-270 | when every invocation is rejected, the chunk's document is the bare chunk with `hasContext` false and `context` undefined |
| Batching.ChunkDocWithContext | nodes/document_loaders/ContextualDocumentLoader/ContextualDocumentLoader.node.ts:238-270 | when every invocation answers the same non-empty string and at least one attempt is allowed (`maxRetries >= 1`), the document is prefix, answer, separator and chunk, with `hasContext` true and `context` the answer |
| Batching.ChunkDocMetadata | nodes/document_loaders/ContextualDocumentLoader/ContextualDocumentLoader.node.ts:264-269 | chunk k's document has `chunkIndex` k and `originalChunk` the chunk, and keeps every other key of the item's metadata |
| Batching.ItemDocsIndexed | nodes/document_loaders/ContextualDocumentLoader/ContextualDocumentLoader.node.ts:216-275 | an item with n chunks yields n documents; document k is numbered k, records chunk k, ends with it, and keeps the item's other metadata |
| Batching.EnrichChunk | nodes/document_loaders/ContextualDocumentLoader/ContextualDocumentLoader.node.ts:219-271 | the mapped callback returns the document specified for its chunk and index |
| Batching.EnrichWindow | nodes/document_loaders/ContextualDocumentLoader/ContextualDocumentLoader.node.ts:217-273 | a window's awaited results are the documents of its chunks in chunk order |
| Batching.EnrichItem | nodes/document_loaders/ContextualDocumentLoader/ContextualDocumentLoader.node.ts:216-276 | the window loop yields the item's documents in chunk order and visits exactly the windows of `Windows(n, batchSize)` |
| Blocks.FlattenLength | nodes/document_loaders/ContextualDocumentLoader/ContextualDocumentLoader.node.ts:275 | pushing blocks one after another yields as many elements as all blocks hold |
| Blocks.FlattenPosition | nodes/document_loaders/ContextualDocumentLoader/ContextualDocumentLoader.node.ts:275 | element k of block i lands at the size of the earlier blocks plus k |
| Blocks.FlattenOrigin | nodes/document_loaders/ContextualDocumentLoader/ContextualDocumentLoader.node.ts:275 | every position of the result lies within the span of some block |
| Loader.ResolveConfig | nodes/document_loaders/ContextualDocumentLoader/ContextualDocumentLoader.node.ts:130-178 | a missing model is reported first, then a missing splitter, then unparsable metadata (only when the option is non-empty); otherwise each option is taken as given and an unset one takes its default, and the base metadata is the parsed value or `{}` |
| Loader.DefaultConfig | nodes/document_loaders/ContextualDocumentLoader/ContextualDocumentLoader.node.ts:162-168 | with no option set: prefix "Context: ", separator a blank line, batch size 10, 3 attempts, empty base metadata |
| Loader.Supply | nodes/document_loaders/ContextualDocumentLoader/ContextualDocumentLoader.node.ts:120-280 | the definition of what `supplyData` returns; its meaning is stated by `ResolveConfig` and the run lemmas below |
| Loader.SupplyData | nodes/document_loaders/ContextualDocumentLoader/ContextualDocumentLoader.node.ts:120-280 | the method returns the error or the documents that `Supply` specifies |
| Loader.DocsCount | nodes/document_loaders/ContextualDocumentLoader/ContextualDocumentLoader.node.ts:181-277 | a run yields exactly one document per chunk of all items |
| Loader.DocsPosition | nodes/document_loaders/ContextualDocumentLoader/ContextualDocumentLoader.node.ts:181-277 | chunk k of item i is at the number of chunks of the earlier items plus k, and that document is built for item i's chunk k with `chunkIndex` k, which restarts at 0 for every item |
| Loader.DocsDecompose | nodes/document_loaders/ContextualDocumentLoader/ContextualDocumentLoader.node.ts:181-277 | every document of a run is the document of one chunk k of one item i, at the position above |
| Loader.DocumentMetadata | nodes/document_loaders/ContextualDocumentLoader/ContextualDocumentLoader.node.ts:186-269 | the document of item i's chunk k has `chunkIndex` k, `originalChunk` the chunk, the item's truthy source fields, and every base key not overridden |
| Loader.FailingModelKeepsChunks | nodes/document_loaders/ContextualDocumentLoader/ContextualDocumentLoader.node.ts:244-270 | with a model that always rejects, every document's content is its original chunk, `hasContext` is false and `context` is undefined |
| Loader.ConstantModelPrefixesChunks | nodes/document_loaders/ContextualDocumentLoader/ContextualDocumentLoader.node.ts:238-263 | with a model that always answers the same non-empty string and at least one attempt, every document is prefix, answer, separator and its original chunk |
| Loader.ThreeChunks | nodes/document_loaders/ContextualDocumentLoader/ContextualDocumentLoader.node.ts:181-279 | the text "AAAA BBBB CCCC", split into three chunks, with a model answering "CTX" and default options, gives exactly the three documents "Context: CTX\n\nAAAA", "…BBBB", "…CCCC" in order |

## Left out

- The node's `description` object and the `getConnectionHintNoticeField`
  helper are not part of this model. They declare the UI and are not part of
  document loading.
- The `execute` method is not part of this model. It only throws a
  `NodeOperationError` saying that the node must be used as a sub-node, and
  `supplyData` never calls it.
- `nodes/utils/logWrapper.ts` is not part of this model. Its `logWrapper`
  returns its argument unchanged and logs nothing, so it does not change
  what `supplyData` computes.
- The host calls `getInputData`, `getInputConnectionData` and
  `getNodeParameter` become arguments of `SupplyData`.
- The splitter's own algorithm is a parameter. A splitter that rejects,
  which would abort `supplyData`, is not modelled: the splitter always
  returns chunks.
- `model.invoke` is a parameter. No request is made. The reply may only
  depend on the item, chunk, attempt and prompt of the call.
- Concurrency within a window is left out: the chunks of a window run one
  after another. `Promise.all` puts results at their chunk's position, so the
  output order is the same. How attempts of different chunks interleave in
  time is not modelled. The in-flight bound of `batchSize` is captured only
  as "no window holds more than `batchSize` chunks" (`WindowsPartition`).
- `setTimeout` waits are recorded as their durations in milliseconds; no time
  passes.
- `console.error` on exhausted retries is dropped. It has no effect on the
  result.
- `JSON.parse` and `JSON.stringify` are parameters; their algorithms are not
  modelled.
- Numbers are integers. `NaN`, infinities, `-0` and fractions are not
  modelled, including a fractional `batchSize` or `maxRetries`.
- Js.NumToString: writes every integer in plain decimal. Integers of magnitude
  10^21 or more, which `String` writes in exponent form (`String(1e21)` is
  "1e+21"), are not modelled, and neither are integers beyond 2^53, which a JS
  number cannot hold exactly. Such a number reaches the prompt when an item's
  text field holds it, and the context when a reply's `content` holds it.
- Records are finite maps. Key order, prototype properties, getters and
  custom `toString` methods are not modelled. An object converts to
  "[object Object]".
- Js.Spread: a string is spread by Dafny characters (Unicode scalar values),
  not by UTF-16 code units as JavaScript does. A metadata string holding a
  character outside the Basic Multilingual Plane therefore gets one key for
  that character where JavaScript gives two, one per surrogate.
- The texts of the `NodeOperationError` messages are not modelled. The three
  errors are distinguished by `LoadError` constructors.
- Loader.SupplyData: requires that the batch loop ends. That means a
  `batchSize` of at least 1, or no item with chunks, whenever the
  configuration resolves. Otherwise `j += batchSize` never reaches the end
  and the source does not return.
