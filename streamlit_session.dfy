/**
 * The Streamlit front end's per-session state: the conversation history and
 * the text-input value, each absent until first initialised.
 */
module StreamlitSession {
  import opened Wrappers
  import opened Messages
  import opened Retrieval
  import opened Outbound

  /** The history a new session starts with: the use-case prompt, then the greeting. */
  function InitialHistory(usecase: string): (h: seq<Message>)
    ensures |h| == 2 && h[0].role == SYSTEM && h[1].role == ASSISTANT
    ensures h[0].content == usecase && h[1].content == GREETING
    ensures !HasRole(h, USER) && LastUserContent(h) == ""
  {
    var h := [Message(SYSTEM, usecase), Message(ASSISTANT, GREETING)];
    assert SYSTEM[0] != USER[0] && ASSISTANT[0] != USER[0];
    assert !HasRole(h, USER);
    LastUserContentSpec(h);
    h
  }

  class SessionState {
    var conversationHistory: Option<seq<Message>>
    var userInput: Option<string>

    /** A session before anything has been stored in it. */
    constructor ()
      ensures conversationHistory == None && userInput == None
    {
      conversationHistory := None;
      userInput := None;
    }

    /**
     * `initialize_session_state()`: each key is filled in only when it is
     * absent, so a session that already has both is left as it is.
     */
    method InitializeSessionState(usecase: string)
      modifies this
      ensures conversationHistory == Some(old(conversationHistory).GetOr(InitialHistory(usecase)))
      ensures userInput == Some(old(userInput).GetOr(""))
      ensures old(conversationHistory).Some? && old(userInput).Some? ==> unchanged(this)
    {
      if conversationHistory.None? {
        conversationHistory := Some(InitialHistory(usecase));
      }
      if userInput.None? {
        userInput := Some("");
      }
    }

    /**
     * `handle_user_input(client)`: an empty input changes nothing. Otherwise
     * the input becomes a user turn, the model's reply (computed on the
     * history that already holds it) is appended only when it is truthy, and
     * the input is cleared.
     */
    method HandleUserInput(usecase: string, embed: string -> EmbedResponse,
                           query: Vector -> seq<seq<string>>, complete: seq<Message> -> Option<string>)
      requires conversationHistory.Some? && userInput.Some?
      modifies this
      ensures old(userInput.value) == "" ==> unchanged(this)
      ensures old(userInput.value) != "" ==>
        var asked := old(conversationHistory.value) + [Message(USER, old(userInput.value))];
        var ai := FetchAiResponse(asked, usecase, embed, query, complete);
        && conversationHistory == Some(if ai.Some? && ai.value != "" then asked + [Message(ASSISTANT, ai.value)] else asked)
        && userInput == Some("")
    {
      if userInput.value != "" {
        var userMessage := userInput.value;
        conversationHistory := Some(conversationHistory.value + [Message(USER, userMessage)]);
        var ai := FetchAiResponse(conversationHistory.value, usecase, embed, query, complete);
        if ai.Some? && ai.value != "" {
          conversationHistory := Some(conversationHistory.value + [Message(ASSISTANT, ai.value)]);
        }
        userInput := Some("");
      }
    }
  }

  /** Initialising twice is the same as initialising once. */
  method InitializeTwice(s: SessionState, usecase: string)
    modifies s
    ensures s.conversationHistory == Some(old(s.conversationHistory).GetOr(InitialHistory(usecase)))
    ensures s.userInput == Some(old(s.userInput).GetOr(""))
  {
    s.InitializeSessionState(usecase);
    ghost var once := (s.conversationHistory, s.userInput);
    s.InitializeSessionState(usecase);
    assert (s.conversationHistory, s.userInput) == once;
  }

  /**
   * The question a submitted input is answered from is the input itself:
   * it is the last user turn of the history handed to the model.
   */
  lemma SubmittedInputIsTheQuestion(h: seq<Message>, input: string)
    ensures LastUserContent(h + [Message(USER, input)]) == input
  {
  }
}
