/**
 * The React chat component: how an assistant message shaped like an e-mail
 * is split into header fields and a body, and how the message list changes
 * when the user sends a message or a file upload completes.
 */
module ChatView {
  import opened Wrappers
  import opened Text
  import opened Messages

  /** The header names `/^(to|from|cc|bcc|subject|date):/i` accepts, in lower case. */
  const HEADER_NAMES: seq<string> := ["to", "from", "cc", "bcc", "subject", "date"]

  /** `line` starts with `name` in any ASCII letter case, followed by a colon. */
  predicate StartsWithField(line: string, name: string)
  {
    |line| > |name| && LowerAsciiString(line[..|name|]) == name && line[|name|] == ':'
  }

  /** The header-line test of `formatEmailContent`. */
  predicate IsHeaderLine(line: string)
  {
    exists k :: 0 <= k < |HEADER_NAMES| && StartsWithField(line, HEADER_NAMES[k])
  }

  /** `header.split(/:\s*\/, 2)`: the text before the first colon and, when there is one, the text after it. */
  datatype HeaderSplit = HeaderSplit(field: string, value: Option<string>)

  /** A header as displayed: the field with its first letter capitalised, and the value. */
  datatype FormattedField = FormattedField(title: string, value: Option<string>)

  /** What the e-mail view shows: the formatted headers and the body text. */
  datatype EmailView = EmailView(headers: seq<FormattedField>, body: string)

  function SplitHeader(header: string): HeaderSplit
  {
    var i := IndexOf(header, ':');
    if i == |header| then HeaderSplit(header, None)
    else
      var rest := header[i + 1 + LeadingWhitespace(header[i + 1..])..];
      HeaderSplit(header[..i], Some(rest[..IndexOf(rest, ':')]))
  }

  /** `field.charAt(0).toUpperCase() + field.slice(1)`, for fields that start with an ASCII character. */
  function Capitalize(field: string): string
  {
    if |field| == 0 then "" else [UpperAscii(field[0])] + field[1..]
  }

  function FormatHeader(header: string): FormattedField
  {
    var split := SplitHeader(header);
    FormattedField(Capitalize(split.field), split.value)
  }

  /** Every header name is a non-empty run of lower-case ASCII letters. */
  lemma {:induction false} HeaderNamesAreLetters(k: nat, j: nat)
    requires k < |HEADER_NAMES| && j < |HEADER_NAMES[k]|
    ensures 'a' <= HEADER_NAMES[k][j] <= 'z' && |HEADER_NAMES[k]| > 0
  {
    if k == 0 { assert HEADER_NAMES[k] == "to"; }
    else if k == 1 { assert HEADER_NAMES[k] == "from"; }
    else if k == 2 { assert HEADER_NAMES[k] == "cc"; }
    else if k == 3 { assert HEADER_NAMES[k] == "bcc"; }
    else if k == 4 { assert HEADER_NAMES[k] == "subject"; }
    else { assert HEADER_NAMES[k] == "date"; }
  }

  /** The first colon of a header line is the one right after its header name. */
  lemma {:induction false} FirstColonAfterName(line: string, k: nat)
    requires k < |HEADER_NAMES| && StartsWithField(line, HEADER_NAMES[k])
    ensures IndexOf(line, ':') == |HEADER_NAMES[k]|
  {
    var name := HEADER_NAMES[k];
    forall j | 0 <= j < |name| ensures line[j] != ':' {
      HeaderNamesAreLetters(k, j);
      assert LowerAsciiString(line[..|name|])[j] == LowerAscii(line[j]);
    }
  }

  /** The value after `:` and white space stops before the next colon and starts with no white space. */
  lemma {:induction false} HeaderValueShape(line: string, i: nat)
    requires i < |line| && IndexOf(line, ':') == i
    ensures var split := SplitHeader(line);
      && split.field == line[..i]
      && line[..i + 1] == split.field + ":"
      && split.value.Some? && ':' !in split.value.value
      && (|split.value.value| > 0 ==> !IsWhitespace(split.value.value[0]))
  {
    assert line[..i + 1] == line[..i] + [line[i]];
    var n := LeadingWhitespace(line[i + 1..]);
    var rest := line[i + 1 + n..];
    var v := rest[..IndexOf(rest, ':')];
    assert SplitHeader(line).value == Some(v);
    if |v| > 0 {
      assert v[0] == line[i + 1..][n];
    }
  }

  /** Every character strictly between positions `lo` and `hi` of `line` is white space. */
  predicate WhitespaceBetween(line: string, lo: nat, hi: nat)
  {
    forall k :: lo < k < hi && k < |line| ==> IsWhitespace(line[k])
  }

  /**
   * `v` starts at `start` in `line`, with only white space between the colon
   * at `colon` and it, and runs up to the next colon or the end of the line.
   */
  predicate ValueAfterColon(line: string, colon: nat, start: nat, v: string)
  {
    colon < start <= |line| - |v| && WhitespaceBetween(line, colon, start)
    && line[start..start + |v|] == v && (start + |v| == |line| || line[start + |v|] == ':')
  }

  /** What `\s*` skips after the colon at `i` is white space only. */
  lemma {:induction false} SkippedIsBlank(line: string, i: nat)
    requires i < |line|
    ensures WhitespaceBetween(line, i, i + 1 + LeadingWhitespace(line[i + 1..]))
  {
    var after := line[i + 1..];
    var n := LeadingWhitespace(after);
    forall k | i < k < i + 1 + n && k < |line| ensures IsWhitespace(line[k]) {
      assert line[k] == after[k - (i + 1)];
    }
  }

  /** The text from `j` up to the next colon lies after the white space that follows the colon at `i`. */
  lemma {:induction false} ValueAt(line: string, i: nat, j: nat)
    requires i < j <= |line| && WhitespaceBetween(line, i, j)
    ensures ValueAfterColon(line, i, j, line[j..][..IndexOf(line[j..], ':')])
  {
    var rest := line[j..];
    var v := rest[..IndexOf(rest, ':')];
    assert line[j..j + |v|] == v;
    if j + |v| < |line| {
      assert line[j + |v|] == rest[|v|];
    }
  }

  /** Where the value of `header.split(/:\s*\/, 2)` lies in the line. */
  lemma {:induction false} HeaderValuePosition(line: string, i: nat)
    requires i < |line| && IndexOf(line, ':') == i
    ensures SplitHeader(line).value.Some?
    ensures exists j :: ValueAfterColon(line, i, j, SplitHeader(line).value.value)
  {
    var j := i + 1 + LeadingWhitespace(line[i + 1..]);
    assert SplitHeader(line).value == Some(line[j..][..IndexOf(line[j..], ':')]);
    SkippedIsBlank(line, i);
    ValueAt(line, i, j);
  }

  /** Capitalising a field that lower-cases to a header name keeps that name and gives a capital first letter. */
  lemma {:induction false} CapitalizedName(field: string, name: string)
    requires |name| > 0 && 'a' <= name[0] <= 'z'
    requires LowerAsciiString(field) == name
    ensures var title := Capitalize(field);
      LowerAsciiString(title) == name && |title| > 0 && 'A' <= title[0] <= 'Z'
      && title[1..] == field[1..]
  {
    var title := Capitalize(field);
    assert LowerAscii(field[0]) == name[0];
    forall j | 0 <= j < |name| ensures LowerAscii(title[j]) == name[j] {
      assert LowerAsciiString(field)[j] == name[j];
    }
  }

  /**
   * A header line's field is the text before its first colon: one of the six
   * header names as it was typed. Its value is present: after the colon and
   * a run of white space, the text up to the next colon or the end of the
   * line. The title shows the field with its first letter in upper case and
   * the rest as typed.
   */
  lemma {:induction false} HeaderLineFields(line: string)
    requires IsHeaderLine(line)
    ensures var split := SplitHeader(line);
      && LowerAsciiString(split.field) in HEADER_NAMES
      && ':' !in split.field
      && |split.field| < |line| && line[..|split.field| + 1] == split.field + ":"
      && split.value.Some? && ':' !in split.value.value
      && (|split.value.value| > 0 ==> !IsWhitespace(split.value.value[0]))
    ensures var split := SplitHeader(line);
      exists j :: ValueAfterColon(line, |split.field|, j, split.value.value)
    ensures var split := SplitHeader(line);
      var title := FormatHeader(line).title;
      && |title| == |split.field| > 0
      && LowerAsciiString(title) == LowerAsciiString(split.field)
      && 'A' <= title[0] <= 'Z' && title[1..] == split.field[1..]
  {
    var k :| 0 <= k < |HEADER_NAMES| && StartsWithField(line, HEADER_NAMES[k]);
    var name := HEADER_NAMES[k];
    FirstColonAfterName(line, k);
    HeaderValueShape(line, |name|);
    HeaderValuePosition(line, |name|);
    var split := SplitHeader(line);
    var field := split.field;
    assert field == line[..|name|];
    assert LowerAsciiString(field) == name && name in HEADER_NAMES;
    HeaderNamesAreLetters(k, 0);
    CapitalizedName(field, name);
    assert FormatHeader(line).title == Capitalize(field);
  }

  /**
   * The line loop of `formatEmailContent`: header lines are collected while
   * in the header; the first blank line ends the header and is dropped; the
   * first other line ends it too and starts the body; after that every line
   * is body.
   */
  method SplitEmailLines(lines: seq<string>) returns (headerLines: seq<string>, bodyLines: seq<string>)
    ensures |headerLines| <= |lines| && headerLines == lines[..|headerLines|]
    ensures forall k :: 0 <= k < |headerLines| ==> IsHeaderLine(headerLines[k])
    ensures |headerLines| == |lines| ==> bodyLines == []
    ensures |headerLines| < |lines| && IsBlank(lines[|headerLines|]) ==>
      bodyLines == lines[|headerLines| + 1..]
    ensures |headerLines| < |lines| && !IsBlank(lines[|headerLines|]) ==>
      !IsHeaderLine(lines[|headerLines|]) && bodyLines == lines[|headerLines|..]
    ensures headerLines + bodyLines == lines
      || (|headerLines| < |lines| && IsBlank(lines[|headerLines|])
          && headerLines + [lines[|headerLines|]] + bodyLines == lines)
  {
    headerLines, bodyLines := [], [];
    var inHeader := true;
    var i := 0;
    while i < |lines|
      invariant 0 <= i <= |lines|
      invariant |headerLines| <= i && headerLines == lines[..|headerLines|]
      invariant forall k :: 0 <= k < |headerLines| ==> IsHeaderLine(headerLines[k])
      invariant inHeader ==> |headerLines| == i && bodyLines == []
      invariant !inHeader ==> |headerLines| < i
      invariant !inHeader && IsBlank(lines[|headerLines|]) ==> bodyLines == lines[|headerLines| + 1..i]
      invariant !inHeader && !IsBlank(lines[|headerLines|]) ==>
        !IsHeaderLine(lines[|headerLines|]) && bodyLines == lines[|headerLines|..i]
    {
      var line := lines[i];
      if inHeader {
        if IsBlank(line) {
          inHeader := false;
        } else if IsHeaderLine(line) {
          headerLines := headerLines + [line];
        } else {
          inHeader := false;
          bodyLines := bodyLines + [line];
        }
      } else {
        bodyLines := bodyLines + [line];
      }
      i := i + 1;
    }
    var n := |headerLines|;
    if n < |lines| {
      if IsBlank(lines[n]) {
        assert lines == lines[..n] + [lines[n]] + lines[n + 1..];
      } else {
        assert lines == lines[..n] + lines[n..];
      }
    }
  }

  /**
   * `formatEmailContent(content)`: the content is split into lines, the
   * header lines become formatted fields and the body lines are joined back
   * with newlines. Content whose first line is neither blank nor a header
   * has no header, and its body is the content unchanged.
   */
  method FormatEmailContent(content: string) returns (view: EmailView)
    ensures var lines := Split(content, '\n');
      var n := |view.headers|;
      && n <= |lines|
      && (forall k :: 0 <= k < n ==> IsHeaderLine(lines[k]) && view.headers[k] == FormatHeader(lines[k]))
      && (n == |lines| ==> view.body == "")
      && (n < |lines| && IsBlank(lines[n]) ==> view.body == Join("\n", lines[n + 1..]))
      && (n < |lines| && !IsBlank(lines[n]) ==> !IsHeaderLine(lines[n]) && view.body == Join("\n", lines[n..]))
    ensures var first := Split(content, '\n')[0];
      !IsBlank(first) && !IsHeaderLine(first) ==> view.headers == [] && view.body == content
  {
    var lines := Split(content, '\n');
    var headerLines, bodyLines := SplitEmailLines(lines);
    var formatted := seq(|headerLines|, k requires 0 <= k < |headerLines| => FormatHeader(headerLines[k]));
    view := EmailView(formatted, Join("\n", bodyLines));
    assert forall k :: 0 <= k < |headerLines| ==> headerLines[k] == lines[k];
    if !IsBlank(lines[0]) && !IsHeaderLine(lines[0]) {
      assert bodyLines == lines[0..];
      assert lines[0..] == lines;
      JoinSplit(content, '\n');
    }
  }

  const APOLOGY := "Sorry, I encountered an error. Please try again."

  /** The component's state: the message list, the input box and the loading flag. */
  class ChatState {
    var messages: seq<Message>
    var input: string
    var loading: bool

    /** The initial state: the single greeting, an empty input, not loading. */
    constructor ()
      ensures messages == [Message(ASSISTANT, GREETING)] && input == "" && !loading
    {
      messages := [Message(ASSISTANT, GREETING)];
      input := "";
      loading := false;
    }

    /** The input box's `onChange`. */
    method SetInput(text: string)
      modifies this`input
      ensures input == text
    {
      input := text;
    }

    /**
     * `handleSendMessage` up to its `await`: blank input is ignored;
     * otherwise the user turn is shown, the input cleared and loading set.
     * The result is the history the request is sent with.
     */
    method SubmitMessage() returns (pending: Option<seq<Message>>)
      modifies this
      ensures IsBlank(old(input)) ==> pending == None && unchanged(this)
      ensures !IsBlank(old(input)) ==>
        var updated := old(messages) + [Message(USER, old(input))];
        && pending == Some(updated)
        && messages == updated && input == "" && loading
    {
      if IsBlank(input) {
        return None;
      }
      var userMessage := Message(USER, input);
      messages := messages + [userMessage];
      input := "";
      loading := true;
      pending := Some(messages);
    }

    /**
     * `handleSendMessage` after its `await`: the list becomes the history
     * captured at submission plus the reply (`None` when the request
     * failed, which shows the apology), whatever the list held meanwhile,
     * and loading ends.
     */
    method CompleteSend(updated: seq<Message>, reply: Option<string>)
      modifies this`messages, this`loading
      ensures messages == updated + [Message(ASSISTANT, reply.GetOr(APOLOGY))]
      ensures !loading
    {
      match reply {
        case Some(response) =>
          messages := updated + [Message(ASSISTANT, response)];
        case None =>
          messages := updated + [Message(ASSISTANT, APOLOGY)];
      }
      loading := false;
    }

    /** A whole `handleSendMessage` with nothing else changing the list while the request is out. */
    method HandleSendMessage(reply: Option<string>)
      modifies this
      ensures IsBlank(old(input)) ==> unchanged(this)
      ensures !IsBlank(old(input)) ==>
        && messages == old(messages) + [Message(USER, old(input)), Message(ASSISTANT, reply.GetOr(APOLOGY))]
        && input == "" && !loading
    {
      var pending := SubmitMessage();
      if pending.Some? {
        CompleteSend(pending.value, reply);
      }
    }

    /** `handleFileUploadResponse`: the extracted text and the reply are appended, in that order. */
    method HandleFileUploadResponse(extractedText: string, aiResponse: string)
      modifies this`messages
      ensures messages == old(messages) + [Message(USER, extractedText), Message(ASSISTANT, aiResponse)]
    {
      messages := messages + [Message(USER, extractedText), Message(ASSISTANT, aiResponse)];
    }
  }
}
