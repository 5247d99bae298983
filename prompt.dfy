/** The fixed wrapper that presents the whole document and one chunk to the
    language model, followed by the configured instruction. The instruction
    is appended verbatim: it is never searched for placeholders. */
module Prompt {

  const DOCUMENT_OPEN := "<document>\n"
  const DOCUMENT_CLOSE := "\n</document>\n\nHere is the chunk we want to situate within the whole document:\n<chunk>\n"
  const CHUNK_CLOSE := "\n</chunk>\n\n"

  /** Offset of the chunk inside a prompt built for a document text of length `textLength`. */
  function ChunkOffset(textLength: nat): nat
  {
    |DOCUMENT_OPEN| + textLength + |DOCUMENT_CLOSE|
  }

  /** The prompt for `chunk` of a document whose resolved text is `text`. */
  function Build(text: string, chunk: string, instruction: string): string
  {
    DOCUMENT_OPEN + text + DOCUMENT_CLOSE + chunk + CHUNK_CLOSE + instruction
  }

  /** The layout of a prompt: the opening tag, the whole text, the closing tag
      and the chunk announcement, the chunk, the chunk's closing tag, and the
      instruction as the final part. */
  lemma BuildLayout(text: string, chunk: string, instruction: string)
    ensures var p := Build(text, chunk, instruction);
      && |p| == ChunkOffset(|text|) + |chunk| + |CHUNK_CLOSE| + |instruction|
      && p[..|DOCUMENT_OPEN|] == DOCUMENT_OPEN
      && p[|DOCUMENT_OPEN|..|DOCUMENT_OPEN| + |text|] == text
      && p[|DOCUMENT_OPEN| + |text|..ChunkOffset(|text|)] == DOCUMENT_CLOSE
      && p[ChunkOffset(|text|)..ChunkOffset(|text|) + |chunk|] == chunk
      && p[ChunkOffset(|text|) + |chunk|..|p| - |instruction|] == CHUNK_CLOSE
      && p[|p| - |instruction|..] == instruction
  {
  }

  /** Two different chunks of one document never receive the same prompt, so
      the model is always told which chunk it is situating. */
  lemma DistinctChunksDistinctPrompts(text: string, c1: string, c2: string, instruction: string)
    requires c1 != c2
    ensures Build(text, c1, instruction) != Build(text, c2, instruction)
  {
    var p1, p2 := Build(text, c1, instruction), Build(text, c2, instruction);
    BuildLayout(text, c1, instruction);
    BuildLayout(text, c2, instruction);
    if |c1| == |c2| {
      var o := ChunkOffset(|text|);
      assert p1[o..o + |c1|] == c1 && p2[o..o + |c2|] == c2;
    }
  }

  /** Prompts for one chunk of two different document texts differ: the
      whole text is carried. */
  lemma DistinctTextsDistinctPrompts(t1: string, t2: string, chunk: string, instruction: string)
    requires t1 != t2
    ensures Build(t1, chunk, instruction) != Build(t2, chunk, instruction)
  {
    var p1, p2 := Build(t1, chunk, instruction), Build(t2, chunk, instruction);
    BuildLayout(t1, chunk, instruction);
    BuildLayout(t2, chunk, instruction);
    if |t1| != |t2| {
      assert |p1| != |p2|;
    } else {
      assert p1[|DOCUMENT_OPEN|..|DOCUMENT_OPEN| + |t1|] == t1;
      assert p2[|DOCUMENT_OPEN|..|DOCUMENT_OPEN| + |t2|] == t2;
    }
  }
}
