/** What the embedder returns: any list of vectors, or an error. */
module Embedding {

  // Components as counts of a fixed unit; nothing here does arithmetic on them.
  type Vector = seq<int>

  datatype EmbedOutcome = EmbedFailed | Vectors(vectors: seq<Vector>)
}
