/**
 * `fetch_ai_response`: the history sent to the language model is a rewritten
 * copy of the conversation. The text of the last user turn is looked up, its
 * retrieved context is wrapped around it in a fixed template, every user turn
 * with that same text is replaced by the enriched turn, and a fresh system
 * message is put in front. The caller's history is a value here, so the
 * rewrite cannot change it.
 */
module Outbound {
  import opened Wrappers
  import opened Messages
  import opened Retrieval

  const PREAMBLE := "Use the following legal context to answer the user's question:\n\nContext:\n"
  const QUESTION_HEADING := "\n\nQuestion:\n"

  /** `next((m["content"] for m in reversed(history) if m["role"] == "user"), "")`. */
  function LastUserContent(h: seq<Message>): string
  {
    if |h| == 0 then ""
    else if h[|h| - 1].role == USER then h[|h| - 1].content
    else LastUserContent(h[..|h| - 1])
  }

  /** The last user turn's text is found; with no user turn it is the empty text. */
  lemma {:induction false} LastUserContentSpec(h: seq<Message>)
    ensures !HasRole(h, USER) ==> LastUserContent(h) == ""
    ensures forall i :: 0 <= i < |h| && h[i].role == USER && (forall j :: i < j < |h| ==> h[j].role != USER) ==>
      LastUserContent(h) == h[i].content
    decreases |h|
  {
    if |h| > 0 && h[|h| - 1].role != USER {
      var init := h[..|h| - 1];
      LastUserContentSpec(init);
      assert HasRole(init, USER) ==> HasRole(h, USER) by {
        if HasRole(init, USER) {
          var k :| 0 <= k < |init| && init[k].role == USER;
          assert h[k].role == USER;
        }
      }
      forall i | 0 <= i < |h| && h[i].role == USER && (forall j :: i < j < |h| ==> h[j].role != USER)
        ensures LastUserContent(h) == h[i].content
      {
        assert i < |init| && init[i] == h[i];
      }
    }
  }

  /** The context-prefixed user message. */
  function EnrichedQuestion(context: string, question: string): string
  {
    PREAMBLE + context + QUESTION_HEADING + question + "\n"
  }

  /**
   * The enriched message is the fixed preamble, then the context, then the
   * question heading, then the question and a newline: both texts occur in
   * it, the context first.
   */
  lemma EnrichedQuestionLayout(context: string, question: string)
    ensures var m := EnrichedQuestion(context, question);
      var q := |PREAMBLE| + |context| + |QUESTION_HEADING|;
      && |m| == q + |question| + 1
      && m[..|PREAMBLE|] == PREAMBLE
      && m[|PREAMBLE|..|PREAMBLE| + |context|] == context
      && m[|PREAMBLE| + |context|..q] == QUESTION_HEADING
      && m[q..q + |question|] == question
      && m[|m| - 1] == '\n'
  {
  }

  /** For a given context, the enriched message determines the question it was built from. */
  lemma EnrichedQuestionInjective(context: string, q1: string, q2: string)
    requires EnrichedQuestion(context, q1) == EnrichedQuestion(context, q2)
    ensures q1 == q2
  {
    EnrichedQuestionLayout(context, q1);
    EnrichedQuestionLayout(context, q2);
  }

  /** The list comprehension: user turns whose text equals `question` become `enriched`. */
  function RewriteHistory(h: seq<Message>, question: string, enriched: string): seq<Message>
  {
    seq(|h|, i requires 0 <= i < |h| =>
      if h[i].role != USER || h[i].content != question then h[i] else Message(USER, enriched))
  }

  /** `[system_prompt] + modified_history` for a context already retrieved. */
  function OutboundHistory(h: seq<Message>, usecase: string, context: string): seq<Message>
  {
    var question := LastUserContent(h);
    [Message(SYSTEM, usecase)] + RewriteHistory(h, question, EnrichedQuestion(context, question))
  }

  /**
   * `fetch_ai_response(client, history)`. `complete` stands for the chat
   * completion call: it receives the outbound history and gives the reply
   * text, or `None` when the call raises or returns no content.
   */
  function FetchAiResponse(h: seq<Message>, usecase: string, embed: string -> EmbedResponse,
                           query: Vector -> seq<seq<string>>,
                           complete: seq<Message> -> Option<string>): Option<string>
  {
    complete(OutboundHistory(h, usecase, ContextFromChroma(LastUserContent(h), embed, query)))
  }

  /**
   * The outbound history is one longer than the conversation, starts with
   * the use-case system message, and keeps every turn in its place: a turn
   * is replaced exactly when it is a user turn with the last user text, and
   * the replacement is a user turn holding the enriched text.
   */
  lemma OutboundShape(h: seq<Message>, usecase: string, context: string)
    ensures var o := OutboundHistory(h, usecase, context);
      var q := LastUserContent(h);
      && |o| == |h| + 1
      && o[0] == Message(SYSTEM, usecase)
      && (forall i :: 0 <= i < |h| ==> o[i + 1].role == h[i].role)
      && (forall i :: 0 <= i < |h| ==>
            (o[i + 1] != h[i] <==> h[i].role == USER && h[i].content == q))
      && (forall i :: 0 <= i < |h| && h[i].role == USER && h[i].content == q ==>
            o[i + 1].content == EnrichedQuestion(context, q))
  {
  }

  /** The most recent user turn is always the one enriched with its own text. */
  lemma LastUserTurnEnriched(h: seq<Message>, usecase: string, context: string, i: nat)
    requires i < |h| && h[i].role == USER
    requires forall j :: i < j < |h| ==> h[j].role != USER
    ensures OutboundHistory(h, usecase, context)[i + 1] == Message(USER, EnrichedQuestion(context, h[i].content))
  {
    LastUserContentSpec(h);
  }

  /**
   * Without any user turn the question is the empty text and nothing is
   * rewritten: the outbound history is the system message followed by the
   * conversation as it was.
   */
  lemma NoUserTurnNothingRewritten(h: seq<Message>, usecase: string, context: string)
    requires !HasRole(h, USER)
    ensures LastUserContent(h) == ""
    ensures OutboundHistory(h, usecase, context) == [Message(SYSTEM, usecase)] + h
  {
    LastUserContentSpec(h);
    var r := RewriteHistory(h, "", EnrichedQuestion(context, ""));
    forall i | 0 <= i < |h| ensures r[i] == h[i] {
      assert h[i].role != USER;
    }
  }

  /**
   * Every earlier user turn that repeats the last user text is rewritten too,
   * not only the last one.
   */
  lemma RepeatedQuestionRewrittenTwice(usecase: string, context: string, q: string, answer: string)
    ensures var h := [Message(USER, q), Message(ASSISTANT, answer), Message(USER, q)];
      OutboundHistory(h, usecase, context)
        == [Message(SYSTEM, usecase), Message(USER, EnrichedQuestion(context, q)),
            Message(ASSISTANT, answer), Message(USER, EnrichedQuestion(context, q))]
  {
  }

  /** The question passed to retrieval is the last user text, and the model sees exactly the outbound history. */
  lemma FetchUsesLastQuestion(h: seq<Message>, usecase: string, embed: string -> EmbedResponse,
                              query: Vector -> seq<seq<string>>,
                              complete: seq<Message> -> Option<string>, i: nat)
    requires i < |h| && h[i].role == USER
    requires forall j :: i < j < |h| ==> h[j].role != USER
    ensures FetchAiResponse(h, usecase, embed, query, complete)
         == complete(OutboundHistory(h, usecase, ContextFromChroma(h[i].content, embed, query)))
  {
    LastUserContentSpec(h);
  }
}
