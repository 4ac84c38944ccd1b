/**
 * The history edits of the Flask handlers `chat` and `upload_file`. Each
 * request decodes its own history list; the handler then edits that list in
 * place (a suffix appended to a system message, a system message inserted at
 * the front, the extracted text appended) before handing it to
 * `fetch_ai_response`. `sent` is the list as it stands at that call.
 */
module FlaskApi {
  import opened Wrappers
  import opened Messages
  import opened Retrieval
  import opened Outbound
  import opened Extraction

  const CHAT_FORMATTING := "\n\nPlease ensure your response preserves formatting like spacing, indentation, and structure, especially for content like emails, code, or formal documents. Use proper paragraph breaks and maintain the intended layout."
  const UPLOAD_FORMATTING := "\n\nPlease ensure your response preserves formatting like spacing, indentation, and structure, especially for content like emails, code, or formal documents."

  /** The `/api/chat` outcomes: status 400, status 500, or the reply. */
  datatype ChatReply = InvalidHistory | AiFailed | Reply(response: string)

  /** An uploaded form file: its name, declared MIME type and content. */
  datatype UploadedFile = UploadedFile(filename: string, contentType: string, content: FileContent)

  /** The `/api/upload` outcomes: the two status-400 cases, status 500, or the reply. */
  datatype UploadReply = NoFilePart | NoSelectedFile | UploadAiFailed | Uploaded(extractedText: string, aiResponse: string)

  /** Python truthiness of the model's reply: `None` and `""` are false. */
  predicate IsTruthyText(r: Option<string>)
  {
    r.Some? && r.value != ""
  }

  predicate IsLastSystem(h: seq<Message>, s: int)
  {
    0 <= s < |h| && h[s].role == SYSTEM && forall j :: s < j < |h| ==> h[j].role != SYSTEM
  }

  predicate IsFirstSystem(h: seq<Message>, s: int)
  {
    0 <= s < |h| && h[s].role == SYSTEM && forall j :: 0 <= j < s ==> h[j].role != SYSTEM
  }

  /** `plain`, PDF and Word text as `process_uploaded_file` produces it for `fileType`. */
  predicate IsExtractionOf(text: string, fileType: string, content: FileContent)
  {
    && (fileType == TEXT_PLAIN ==> text == content.text)
    && (fileType == PDF ==> text == Text.Concat(content.pages))
    && (fileType == DOCX && |content.paragraphs| == 0 ==> text == "")
    && (fileType == DOCX && |content.paragraphs| > 0 ==> text == Text.Join("\n", content.paragraphs) + "\n")
    && (fileType !in {TEXT_PLAIN, PDF, DOCX} ==> text == UNSUPPORTED)
  }

  /** The scan in `chat`: the index of the last system message, or -1. */
  method LastSystemIndex(h: seq<Message>) returns (idx: int)
    ensures -1 <= idx < |h|
    ensures idx >= 0 <==> HasRole(h, SYSTEM)
    ensures idx >= 0 ==> IsLastSystem(h, idx)
  {
    idx := -1;
    var i := 0;
    while i < |h|
      invariant 0 <= i <= |h|
      invariant -1 <= idx < i
      invariant idx >= 0 ==> h[idx].role == SYSTEM
      invariant forall j :: idx < j < i ==> h[j].role != SYSTEM
    {
      if h[i].role == SYSTEM {
        idx := i;
      }
      i := i + 1;
    }
  }

  /** The scan in `upload_file`, which stops at the first system message: its index, or -1. */
  method FirstSystemIndex(h: seq<Message>) returns (idx: int)
    ensures -1 <= idx < |h|
    ensures idx >= 0 <==> HasRole(h, SYSTEM)
    ensures idx >= 0 ==> IsFirstSystem(h, idx)
  {
    idx := -1;
    var i := 0;
    while i < |h|
      invariant 0 <= i <= |h|
      invariant idx == -1
      invariant forall j :: 0 <= j < i ==> h[j].role != SYSTEM
    {
      if h[i].role == SYSTEM {
        idx := i;
        break;
      }
      i := i + 1;
    }
  }

  /**
   * `chat()`: a history that is empty or does not end with a user turn is
   * rejected untouched. Otherwise the formatting instruction is appended to
   * the last system message, or a new system message is put at the front,
   * and the edited history goes to `fetch_ai_response`; a falsy reply is the
   * status-500 case.
   */
  method Chat(history: seq<Message>, usecase: string, embed: string -> EmbedResponse,
              query: Vector -> seq<seq<string>>, complete: seq<Message> -> Option<string>)
    returns (reply: ChatReply, sent: seq<Message>)
    ensures reply == InvalidHistory <==> |history| == 0 || history[|history| - 1].role != USER
    ensures reply == InvalidHistory ==> sent == history
    ensures reply != InvalidHistory ==>
      |sent| > 0 && sent[|sent| - 1] == history[|history| - 1]
    ensures reply != InvalidHistory && HasRole(history, SYSTEM) ==>
      exists s :: IsLastSystem(history, s)
        && sent == history[s := Message(SYSTEM, history[s].content + CHAT_FORMATTING)]
    ensures reply != InvalidHistory && !HasRole(history, SYSTEM) ==>
      sent == [Message(SYSTEM, usecase + CHAT_FORMATTING)] + history
    ensures reply != InvalidHistory ==>
      var ai := FetchAiResponse(sent, usecase, embed, query, complete);
      reply == if IsTruthyText(ai) then Reply(ai.value) else AiFailed
  {
    sent := history;
    if |sent| == 0 || sent[|sent| - 1].role != USER {
      return InvalidHistory, sent;
    }
    var last := LastSystemIndex(sent);
    if last >= 0 {
      sent := sent[last := Message(sent[last].role, sent[last].content + CHAT_FORMATTING)];
    } else {
      sent := [Message(SYSTEM, usecase + CHAT_FORMATTING)] + sent;
    }
    var ai := FetchAiResponse(sent, usecase, embed, query, complete);
    if !IsTruthyText(ai) {
      return AiFailed, sent;
    }
    reply := Reply(ai.value);
  }

  /**
   * `upload_file()`: without a file part or with an empty file name the
   * request is rejected and nothing is sent. Otherwise the history from the
   * form (empty when it does not decode) gets the shorter formatting
   * instruction on its first system message, or a new system message at the
   * front, and then the extracted text as its final user turn.
   */
  method UploadFile(file: Option<UploadedFile>, historyField: Option<seq<Message>>, usecase: string,
                    embed: string -> EmbedResponse, query: Vector -> seq<seq<string>>,
                    complete: seq<Message> -> Option<string>)
    returns (reply: UploadReply, sent: seq<Message>)
    ensures reply == NoFilePart <==> file.None?
    ensures reply == NoSelectedFile <==> file.Some? && file.value.filename == ""
    ensures reply in {NoFilePart, NoSelectedFile} ==> sent == []
    ensures reply !in {NoFilePart, NoSelectedFile} ==> |sent| > 0 && sent[|sent| - 1].role == USER
    ensures reply !in {NoFilePart, NoSelectedFile} && |sent| > 0 ==>
      var h := historyField.GetOr([]);
      var text := sent[|sent| - 1].content;
      && IsExtractionOf(text, file.value.contentType, file.value.content)
      && (HasRole(h, SYSTEM) ==>
            exists s :: IsFirstSystem(h, s)
              && sent == h[s := Message(SYSTEM, h[s].content + UPLOAD_FORMATTING)] + [Message(USER, text)])
      && (!HasRole(h, SYSTEM) ==>
            sent == [Message(SYSTEM, usecase + UPLOAD_FORMATTING)] + h + [Message(USER, text)])
      && var ai := FetchAiResponse(sent, usecase, embed, query, complete);
         reply == if IsTruthyText(ai) then Uploaded(text, ai.value) else UploadAiFailed
  {
    if file.None? {
      return NoFilePart, [];
    }
    if file.value.filename == "" {
      return NoSelectedFile, [];
    }
    var h := historyField.GetOr([]);
    var text := ProcessUploadedFile(file.value.contentType, file.value.content);
    var first := FirstSystemIndex(h);
    if first >= 0 {
      h := h[first := Message(h[first].role, h[first].content + UPLOAD_FORMATTING)];
    } else {
      h := [Message(SYSTEM, usecase + UPLOAD_FORMATTING)] + h;
    }
    h := h + [Message(USER, text)];
    sent := h;
    var ai := FetchAiResponse(sent, usecase, embed, query, complete);
    if !IsTruthyText(ai) {
      return UploadAiFailed, sent;
    }
    reply := Uploaded(text, ai.value);
  }

  /**
   * When `chat` had to insert its own system message, the model receives two
   * system messages in front: the fresh use-case prompt that
   * `fetch_ai_response` prepends, then the inserted one with the formatting
   * instruction.
   */
  lemma InsertedPromptFollowsFreshOne(history: seq<Message>, usecase: string, context: string)
    ensures var o := OutboundHistory([Message(SYSTEM, usecase + CHAT_FORMATTING)] + history, usecase, context);
      |o| == |history| + 2
      && o[0] == Message(SYSTEM, usecase)
      && o[1] == Message(SYSTEM, usecase + CHAT_FORMATTING)
  {
    OutboundShape([Message(SYSTEM, usecase + CHAT_FORMATTING)] + history, usecase, context);
  }
}
