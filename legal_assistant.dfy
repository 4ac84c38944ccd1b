/**
 * The command-line legal assistant: retrieve context for a question and ask
 * a text-generation endpoint to answer from that context only. The
 * generation endpoint is the parameter `generate`, from prompt to decoded
 * reply.
 */
module LegalAssistant {
  import opened Text
  import opened Retrieval

  /**
   * The generation endpoint's reply: `success` is the truthiness of its
   * `success` field and `result` its `result` field, the empty text standing
   * for an absent or falsy one.
   */
  datatype GenerateResponse = GenerateResponse(success: bool, result: string)

  const ANSWER_FALLBACK := "I couldn't generate an answer based on the provided context."
  const NO_EMBEDDING_REPLY := "Sorry, I couldn't process your question."
  const NO_DOCUMENTS_REPLY := "No relevant information found in the database."

  const PROMPT_HEAD := "\n    You are a legal assistant answering questions based only on the Indian Constitution.\n    Use the following context to answer the question. Do not use any external knowledge.\n\n    If the answer is not found in the context, respond with:\n    \"The answer is not available in the provided context.\"\n\n    Context:\n    "
  const PROMPT_QUESTION := "\n\n    Question: "
  const PROMPT_TAIL := "\n\n    Answer:\n    "

  /** The prompt `generate_answer` sends. */
  function AnswerPrompt(question: string, context: string): string
  {
    PROMPT_HEAD + context + PROMPT_QUESTION + question + PROMPT_TAIL
  }

  /** The context sits right after the fixed instructions, and the question after the context. */
  lemma AnswerPromptLayout(question: string, context: string)
    ensures var p := AnswerPrompt(question, context);
      var q := |PROMPT_HEAD| + |context| + |PROMPT_QUESTION|;
      && |p| == q + |question| + |PROMPT_TAIL|
      && p[..|PROMPT_HEAD|] == PROMPT_HEAD
      && p[|PROMPT_HEAD|..|PROMPT_HEAD| + |context|] == context
      && p[q..q + |question|] == question
      && p[q + |question|..] == PROMPT_TAIL
  {
  }

  /** `generate_answer(question, context)`: the model's text when the reply is usable, else a fixed apology. */
  function GenerateAnswer(question: string, context: string, generate: string -> GenerateResponse): (answer: string)
    ensures var r := generate(AnswerPrompt(question, context));
      && (r.success && r.result != "" ==> answer == r.result)
      && (!(r.success && r.result != "") ==> answer == ANSWER_FALLBACK)
  {
    var r := generate(AnswerPrompt(question, context));
    if r.success && r.result != "" then r.result else ANSWER_FALLBACK
  }

  /** `query_legal_assistant(question)`. */
  function QueryLegalAssistant(question: string, embed: string -> EmbedResponse,
                               query: Vector -> seq<seq<string>>,
                               generate: string -> GenerateResponse): string
  {
    var embedding := GetEmbedding(embed(question));
    if !IsTruthy(embedding) then NO_EMBEDDING_REPLY
    else
      var documents := query(embedding.value);
      if |documents| == 0 then NO_DOCUMENTS_REPLY
      else GenerateAnswer(question, Join(DOCUMENT_SEPARATOR, documents[0]), generate)
  }

  /**
   * Without a usable embedding the answer is the first apology, whatever the
   * store and the generator would say: neither is consulted.
   */
  lemma NoEmbeddingNoCalls(question: string, embed: string -> EmbedResponse,
                           query: Vector -> seq<seq<string>>, otherQuery: Vector -> seq<seq<string>>,
                           generate: string -> GenerateResponse, otherGenerate: string -> GenerateResponse)
    requires !IsTruthy(GetEmbedding(embed(question)))
    ensures QueryLegalAssistant(question, embed, query, generate) == NO_EMBEDDING_REPLY
    ensures QueryLegalAssistant(question, embed, otherQuery, otherGenerate) == NO_EMBEDDING_REPLY
  {
  }

  /** With an empty outer `documents` list the answer is the second apology, and no generation happens. */
  lemma NoDocumentsNoGeneration(question: string, embed: string -> EmbedResponse,
                                query: Vector -> seq<seq<string>>,
                                generate: string -> GenerateResponse, otherGenerate: string -> GenerateResponse)
    requires IsTruthy(GetEmbedding(embed(question)))
    requires query(GetEmbedding(embed(question)).value) == []
    ensures QueryLegalAssistant(question, embed, query, generate) == NO_DOCUMENTS_REPLY
    ensures QueryLegalAssistant(question, embed, query, otherGenerate) == NO_DOCUMENTS_REPLY
  {
  }

  /**
   * Otherwise the answer is generated from exactly the context the
   * module-level `get_context_from_chroma` assembles for the question.
   */
  lemma AnswerFromRetrievedContext(question: string, embed: string -> EmbedResponse,
                                   query: Vector -> seq<seq<string>>, generate: string -> GenerateResponse)
    requires IsTruthy(GetEmbedding(embed(question)))
    requires query(GetEmbedding(embed(question)).value) != []
    ensures QueryLegalAssistant(question, embed, query, generate)
         == GenerateAnswer(question, ContextFromChroma(question, embed, query), generate)
  {
  }
}
