# Legal chatbot: a Dafny model of the string and history handling

This project models the deterministic core of a retrieval-augmented legal
chatbot. It covers the code that moves strings and chat histories between the
calls to remote services. The embedding endpoint, the vector store, the chat
completion endpoint and the text-generation endpoint are black boxes here. Each
one is a function-typed parameter, and the model proves what the surrounding
code does with its answers.

The model has these modules:

- `Messages` (`messages.dfy`): a chat turn is `Message(role, content)`. Roles
  are free strings, because the HTTP API takes whatever JSON the client sends.
  `usecase_prompt()` is a `usecase: string` parameter.
- `Retrieval` (`retrieval.dfy`): the response check of `get_embedding` and the
  three-tier fallback of `get_context_from_chroma`. The repository has three
  identical copies of it, in `app.py`, `chatbot.py` and
  `Worker_AI_RAG/process_markdown.py`. The second `get_embedding` in
  `process_markdown.py` (lines 44-62) has the same response check as the first.
  The vector is only tested for emptiness. The store's answer is its
  `documents` field, `seq<seq<string>>`, and the `if result["documents"]` test
  is on the outer list.
- `Outbound` (`outbound.dfy`): `fetch_ai_response`. It finds the last user
  text and wraps the retrieved context around it in the fixed template. It
  rewrites every user turn with that text and prepends a fresh system message.
  The caller's history is a Dafny value, so the rewrite cannot mutate it.
- `Extraction` (`extraction.dfy`): `process_uploaded_file` and the `text +=`
  loops of the PDF and Word extractors. These work over the page and paragraph
  texts the parsers would yield.
- `FlaskApi` (`flask_api.dfy`): the `chat` and `upload_file` handlers. A
  handler validates the request. It then edits its request-local history list,
  appending a formatting suffix to a system message or inserting a new one,
  and `upload_file` also appends the extracted text. The edited list (`sent`)
  goes to `fetch_ai_response`, and the handler maps the reply to a status.
- `StreamlitSession` (`streamlit_session.dfy`): the Streamlit session state as
  a class, with `initialize_session_state` and `handle_user_input`.
- `LegalAssistant` (`legal_assistant.dfy`): `generate_answer`'s prompt and its
  result/fallback choice, and the tiers of `query_legal_assistant`.
- `ChatView` (`chat_view.dfy`): the React component. `formatEmailContent` is a
  loop over lines with the `isInHeader` flag, and the model also covers how it
  splits and capitalises header fields. The component state is a class.
  `handleSendMessage` is cut at its `await` into `SubmitMessage` and
  `CompleteSend`. This cut shows that the final list is built from the history
  captured at submission. `handleFileUploadResponse` is a class method too.
- `Text` and `Wrappers`: `join`, `split('\n')`, concatenation, JavaScript white
  space and ASCII case folding, and `Option`.

"The store is not queried" and "nothing is generated" are stated as
independence: the result is the same for any two `query` or `generate`
functions.

The code differs from its own comments, and from a first reading, in these
ways. The model follows the code:

- The comment at `app.py:81` says "Replace the last user message". The code
  replaces every user turn whose text equals the last user text, not only the
  most recent one (`RepeatedQuestionRewrittenTwice`).
- With no user turn at all, the code uses the empty text as the question. It
  does not reject the history. Nothing is then rewritten
  (`NoUserTurnNothingRewritten`).
- `fetch_ai_response` always prepends a fresh system message. The
  append-or-insert rule lives in the Flask handlers. So `/api/chat` can send
  two system messages in a row (`InsertedPromptFollowsFreshOne`).
- The joined context is not always non-empty. An empty first document list
  gives the empty text.

## Model

| member | source | states |
|---|---|---|
| `Retrieval.GetEmbedding` | app.py:30-41 | a vector is returned exactly when `success` is truthy, `result` is present and its `data` list is non-empty, and it is `data[0]`; otherwise `None` |
| `Retrieval.ContextTiers` | chatbot.py:33-40 | no usable embedding gives "No relevant context found." for every store (the store is not consulted); an empty outer `documents` list gives "No relevant documents found."; otherwise `documents[0]` joined with a blank line |
| `Retrieval.EmptyVectorMeansNoContext` | chatbot.py:34-36 | an empty vector is falsy, so it also yields "No relevant context found." |
| `Retrieval.ContextKeepsRetrievalOrder` | chatbot.py:37-39 | the documents before any position come before those after it in the context, separated by "\n\n" (retrieval order kept) |
| `Retrieval.ContextFromChroma` | chatbot.py:33-40 | no ensures of its own; its tiers are stated by `ContextTiers`, `EmptyVectorMeansNoContext` and `ContextKeepsRetrievalOrder` |
| `Outbound.LastUserContent` | app.py:66 | no ensures of its own; `LastUserContentSpec` states what it returns |
| `Outbound.EnrichedQuestion` | app.py:72-79 | no ensures of its own; see `EnrichedQuestionLayout` and `EnrichedQuestionInjective` |
| `Outbound.RewriteHistory` | app.py:82-86 | no ensures of its own; see `OutboundShape`, `LastUserTurnEnriched` and `RepeatedQuestionRewrittenTwice` |
| `Outbound.OutboundHistory` | app.py:89-90 | no ensures of its own; see `OutboundShape` and `NoUserTurnNothingRewritten` |
| `Outbound.FetchAiResponse` | app.py:63-102 | no ensures of its own; see `FetchUsesLastQuestion` |
| `Outbound.LastUserContentSpec` | app.py:66 | the question is the content of the highest-index user turn, or "" when there is no user turn |
| `Outbound.EnrichedQuestionLayout` | app.py:72-79 | the enriched message is the fixed preamble, the context, "\n\nQuestion:\n", the question and a newline, so the context precedes the question |
| `Outbound.EnrichedQuestionInjective` | chatbot.py:62-69 | for a given context, the enriched message determines the question it was built from |
| `Outbound.OutboundShape` | app.py:82-90 | the outbound list is one longer, starts with `{system, usecase}`, keeps every role in place, and changes a turn exactly when it is a user turn whose text equals the last user text, replacing its content with the enriched text |
| `Outbound.LastUserTurnEnriched` | app.py:81-86 | the most recent user turn is always replaced by the enriched version of its own text |
| `Outbound.NoUserTurnNothingRewritten` | chatbot.py:56-80 | with no user turn the question is "" and the outbound list is the system message followed by the unchanged history |
| `Outbound.RepeatedQuestionRewrittenTwice` | chatbot.py:71-76 | an earlier user turn that repeats the last user text is rewritten as well |
| `Outbound.FetchUsesLastQuestion` | app.py:63-98 | context is retrieved for the last user text and the model receives exactly the outbound history built from it |
| `Extraction.ExtractTextFromPdf` | app.py:104-110 | the text is the page texts concatenated with no separator, each page at the offset of the pages before it |
| `Extraction.ExtractTextFromDocx` | chatbot.py:235-240 | the text is every paragraph followed by "\n": "" for no paragraphs, otherwise the "\n"-join of the paragraphs plus a final "\n" |
| `Extraction.DocxTextSplitsIntoParagraphs` | app.py:112-117 | splitting the Word text at newlines gives the paragraphs back, then one empty piece, when no paragraph holds a newline |
| `Extraction.ProcessUploadedFile` | app.py:119-130 | plain text is returned as read, PDF and Word files as extracted, and any other MIME type gives "Unsupported file type." |
| `Text.ConcatPartAt` | chatbot.py:228-233 | in a concatenation, each part sits right after the concatenation of the parts before it |
| `Text.Split` | frontend/src/components/Chat.js:35 | there is always at least one piece, and no piece holds the separator; `JoinSplit` and `SplitJoin` make it the inverse of the join |
| `Text.IsBlank` | frontend/src/components/Chat.js:45 | no ensures of its own; `line.trim() === ''` and `!input.trim()` (line 98), used by `SplitEmailLines` and `SubmitMessage` |
| `Text.JoinSplit` | frontend/src/components/Chat.js:74 | joining the pieces of `split('\n')` with "\n" gives the original text back |
| `Text.SplitJoin` | frontend/src/components/Chat.js:35 | splitting newline-free lines joined with "\n" gives the lines back |
| `FlaskApi.LastSystemIndex` | app.py:144-147 | the scan finds the highest index holding a system message, or -1 exactly when there is none |
| `FlaskApi.FirstSystemIndex` | app.py:192-197 | the scan with `break` finds the lowest index holding a system message, or -1 exactly when there is none |
| `FlaskApi.Chat` | app.py:135-164 | an empty history, or one not ending in a user turn, is rejected and left untouched; otherwise the suffix goes onto the last system message only (length and other turns unchanged) or a new system message `usecase + suffix` is inserted at index 0; the last turn is still the original user turn; a falsy reply is the failure case |
| `FlaskApi.UploadFile` | app.py:166-218 | a missing file part or empty file name is rejected and nothing is sent; otherwise the shorter suffix goes onto the first system message only, or a new system message is inserted at index 0; the extracted text is then the final user turn |
| `FlaskApi.InsertedPromptFollowsFreshOne` | app.py:152-157 | after `chat` inserts its own system message, the model receives the fresh use-case system message followed by the inserted one |
| `StreamlitSession.InitialHistory` | chatbot.py:171-174 | a new session's history is the system message holding the use-case prompt followed by the assistant greeting; it has no user turn, so the question retrieval would use is "" |
| `StreamlitSession.SessionState.constructor` | chatbot.py:168-177 | a session starts with neither key present, which is what `initialize_session_state` tests for |
| `StreamlitSession.SessionState.InitializeSessionState` | chatbot.py:168-177 | each key is set only when absent; a session that has both is unchanged |
| `StreamlitSession.InitializeTwice` | chatbot.py:168-177 | a second initialisation changes nothing: two calls leave the state one call leaves |
| `StreamlitSession.SessionState.HandleUserInput` | chatbot.py:188-204 | an empty input changes nothing; otherwise the user turn is appended, an assistant turn only when the reply is truthy, and the input is cleared |
| `StreamlitSession.SubmittedInputIsTheQuestion` | chatbot.py:189-196 | the input just appended is the question the reply is computed for |
| `LegalAssistant.AnswerPrompt` | Worker_AI_RAG/process_markdown.py:69-82 | no ensures of its own; see `AnswerPromptLayout` |
| `LegalAssistant.QueryLegalAssistant` | Worker_AI_RAG/process_markdown.py:99-121 | no ensures of its own; see `NoEmbeddingNoCalls`, `NoDocumentsNoGeneration` and `AnswerFromRetrievedContext` |
| `LegalAssistant.AnswerPromptLayout` | Worker_AI_RAG/process_markdown.py:69-82 | the prompt is the fixed instructions, the context, the question heading, the question and the answer cue, so the context precedes the question |
| `LegalAssistant.GenerateAnswer` | Worker_AI_RAG/process_markdown.py:93-97 | the answer is the endpoint's `result` when `success` and `result` are truthy, otherwise "I couldn't generate an answer based on the provided context." |
| `LegalAssistant.NoEmbeddingNoCalls` | Worker_AI_RAG/process_markdown.py:102-104 | without a usable embedding the reply is "Sorry, I couldn't process your question." whatever the store and generator would do |
| `LegalAssistant.NoDocumentsNoGeneration` | Worker_AI_RAG/process_markdown.py:113-114 | an empty outer `documents` list gives "No relevant information found in the database." whatever the generator would do |
| `LegalAssistant.AnswerFromRetrievedContext` | Worker_AI_RAG/process_markdown.py:116-121 | otherwise the answer is `generate_answer` on the context the module-level `get_context_from_chroma` assembles |
| `ChatView.IsHeaderLine` | frontend/src/components/Chat.js:51 | no ensures of its own; the case-insensitive test for a line starting with to, from, cc, bcc, subject or date and a colon, used by `SplitEmailLines` and `HeaderLineFields` |
| `ChatView.SplitHeader` | frontend/src/components/Chat.js:64 | no ensures of its own; see `HeaderLineFields` and `HeaderValuePosition` |
| `ChatView.Capitalize` | frontend/src/components/Chat.js:68 | no ensures of its own; see `HeaderLineFields` |
| `ChatView.FormatHeader` | frontend/src/components/Chat.js:63-70 | no ensures of its own; see `HeaderLineFields` and `FormatEmailContent` |
| `ChatView.HeaderLineFields` | frontend/src/components/Chat.js:64-68 | a header line's field is the text before its first colon, one of to/from/cc/bcc/subject/date as typed; its value is present and is the text that follows the colon and a run of white space, up to the next colon or the end of the line; the title is the field with its first letter in upper case and the rest unchanged |
| `ChatView.HeaderValuePosition` | frontend/src/components/Chat.js:64 | the value of `split(/:\s*/, 2)` starts after the first colon and white space only, and runs up to the next colon or the end of the line |
| `ChatView.SplitEmailLines` | frontend/src/components/Chat.js:41-61 | header lines are a prefix of the lines, all matching the header pattern; the header ends at the first blank line (dropped) or the first other line (which starts the body); header lines, the dropped line if any, and body lines make up the input in order |
| `ChatView.FormatEmailContent` | frontend/src/components/Chat.js:33-74 | each displayed header comes from the matching line; the body is the remaining lines joined with "\n"; content whose first line is neither blank nor a header has no headers and its body is the content itself |
| `ChatView.ChatState.constructor` | frontend/src/components/Chat.js:6-10 | the initial state is the single assistant greeting, an empty input and no loading |
| `ChatView.ChatState.SetInput` | frontend/src/components/Chat.js:168 | the input box holds the typed text |
| `ChatView.ChatState.SubmitMessage` | frontend/src/components/Chat.js:96-103 | blank or whitespace-only input is ignored; otherwise the user turn is appended, the input cleared and loading set |
| `ChatView.ChatState.CompleteSend` | frontend/src/components/Chat.js:105-122 | the list becomes the submitted history plus the reply, or the apology on error, and loading ends |
| `ChatView.ChatState.HandleSendMessage` | frontend/src/components/Chat.js:96-123 | a whole send appends exactly the user turn and the assistant turn (reply or apology), clears the input and ends with loading false |
| `ChatView.ChatState.HandleFileUploadResponse` | frontend/src/components/Chat.js:125-131 | exactly two turns are appended, the extracted text as user and then the reply as assistant |

## Left out

- Remote calls are function parameters, not modelled: the HTTP posts to the
  embedding and text-generation endpoints, the chat completion call, client
  set-up with SSL, and the vector store's `query` and `add`.
- Floating-point vectors are not modelled. A vector is a `seq<real>` that is
  only tested for emptiness. The store's top-3 limit and similarity order are
  its own business.
- The model assumes the embedding and store calls inside `fetch_ai_response`
  return. In the code, an exception there is caught and gives `None` like a
  failed completion. In `query_legal_assistant` the exception propagates.
- JSON payloads are reduced to the truthiness the code tests. `success` is a
  boolean. An absent or falsy `result` is `None`, and an absent `data` list is
  empty. A falsy generation `result` is the empty text. A completion with no
  content is `None`.
- Reading a plain-text upload is not modelled: UTF-8 decoding and Python's
  newline translation in `open(..., 'r')`. The model takes the text as read.
  PDF and Word parsing, saving and removing the temporary file, and
  `secure_filename` are not modelled either.
- Decoding the `conversation_history` form field is reduced to "decodes to a
  list or fails". JSON that decodes to something other than a list of messages
  is not modelled. Messages without a `role` key are not modelled, so the
  `KeyError` they would raise is absent.
- Flask routing, `jsonify`, the health and index routes, the Streamlit UI
  (`main` and its upload button, `load_css`, `display_chat_history`,
  spinners) and the command-line loop of `process_markdown.py` are
  presentation and are not modelled.
- `extract_text_from_image` is not modelled. It refers to names that are never
  defined, so it cannot run.
- `Worker_AI_RAG/chroma.py` is ingestion I/O and is not part of this model.
- `usecase_prompt()` is not part of this model. Its `prompt_utils` module is
  not shown, so it is a string parameter.
- In `Chat.js`, the `detectEmailFormat` patterns, the JSX rendering and the
  scroll effect are not modelled.
- A reply that succeeds without a `response` field is not modelled. The code
  would show `undefined` for it.
- Interleavings of the two asynchronous handlers are not modelled.
  `CompleteSend` states that the final list is the history captured at
  submission plus the reply, which overwrites any change made meanwhile.
- Capitalisation of header fields is ASCII only. JavaScript's `toUpperCase`
  handles all of Unicode, but the first character of a header field is always
  an ASCII letter (`HeaderLineFields`). Characters are Unicode scalar values,
  not UTF-16 code units.
