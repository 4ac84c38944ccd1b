/**
 * Context assembly: ask the embedding service for a vector, ask the vector
 * store for the nearest documents, and turn the answer into one context
 * string with a three-tier fallback.
 *
 * The remote services are parameters: `embed` is the decoded JSON reply of
 * the embedding endpoint for a text, `query` the `documents` field of the
 * vector store's reply for a query vector.
 */
module Retrieval {
  import opened Wrappers
  import opened Text

  /** Embedding vectors; only whether one is empty matters here. */
  type Vector = seq<real>

  /**
   * The embedding endpoint's reply. `success` is the truthiness of its
   * `success` field; `result` is `None` when the `result` field is absent or
   * falsy, and otherwise holds its `data` list (empty when `data` is absent).
   */
  datatype EmbedResponse = EmbedResponse(success: bool, result: Option<seq<Vector>>)

  const NO_CONTEXT := "No relevant context found."
  const NO_DOCUMENTS := "No relevant documents found."
  const DOCUMENT_SEPARATOR := "\n\n"

  /** The response check of `get_embedding`: the first vector of a successful reply, or `None`. */
  function GetEmbedding(resp: EmbedResponse): (e: Option<Vector>)
    ensures e.Some? <==> resp.success && resp.result.Some? && |resp.result.value| > 0
    ensures e.Some? ==> e.value == resp.result.value[0]
  {
    if resp.success && resp.result.Some? && |resp.result.value| > 0 then Some(resp.result.value[0])
    else None
  }

  /** Python truthiness of the embedding: `None` and the empty list are false. */
  predicate IsTruthy(e: Option<Vector>)
  {
    e.Some? && |e.value| > 0
  }

  /** `get_context_from_chroma(question)`. */
  function ContextFromChroma(question: string, embed: string -> EmbedResponse,
                             query: Vector -> seq<seq<string>>): (context: string)
  {
    var embedding := GetEmbedding(embed(question));
    if !IsTruthy(embedding) then NO_CONTEXT
    else
      var documents := query(embedding.value);
      if |documents| > 0 then Join(DOCUMENT_SEPARATOR, documents[0])
      else NO_DOCUMENTS
  }

  /**
   * The three tiers: no usable embedding gives the first sentinel whatever
   * the store would answer (the store is not consulted); an empty outer
   * `documents` list gives the second; otherwise the first document list is
   * joined with a blank line, in retrieval order.
   */
  lemma ContextTiers(question: string, embed: string -> EmbedResponse,
                     query: Vector -> seq<seq<string>>, otherQuery: Vector -> seq<seq<string>>)
    ensures var e := GetEmbedding(embed(question));
      && (!IsTruthy(e) ==> ContextFromChroma(question, embed, query) == NO_CONTEXT
                           == ContextFromChroma(question, embed, otherQuery))
      && (IsTruthy(e) && query(e.value) == [] ==> ContextFromChroma(question, embed, query) == NO_DOCUMENTS)
      && (IsTruthy(e) && query(e.value) != [] ==>
            ContextFromChroma(question, embed, query) == Join(DOCUMENT_SEPARATOR, query(e.value)[0]))
  {
  }

  /**
   * A vector that comes back empty (`data[0] == []`) is treated like no
   * vector at all: the context is the first sentinel.
   */
  lemma EmptyVectorMeansNoContext(question: string, embed: string -> EmbedResponse,
                                  query: Vector -> seq<seq<string>>)
    requires embed(question).success && embed(question).result.Some?
    requires |embed(question).result.value| > 0 && embed(question).result.value[0] == []
    ensures ContextFromChroma(question, embed, query) == NO_CONTEXT
  {
  }

  /**
   * Retrieval order is kept: the documents before position `k` all come
   * before the documents from `k` on, separated by one blank line.
   */
  lemma ContextKeepsRetrievalOrder(question: string, embed: string -> EmbedResponse,
                                   query: Vector -> seq<seq<string>>, k: nat)
    requires IsTruthy(GetEmbedding(embed(question)))
    requires var docs := query(GetEmbedding(embed(question)).value);
      |docs| > 0 && 0 < k < |docs[0]|
    ensures var docs := query(GetEmbedding(embed(question)).value)[0];
      ContextFromChroma(question, embed, query)
        == Join(DOCUMENT_SEPARATOR, docs[..k]) + DOCUMENT_SEPARATOR + Join(DOCUMENT_SEPARATOR, docs[k..])
  {
    var docs := query(GetEmbedding(embed(question)).value)[0];
    JoinSplitAt(DOCUMENT_SEPARATOR, docs, k);
  }
}
