/**
 * Text extraction from uploaded files, dispatched on the declared MIME type.
 * The PDF and Word parsers are not modelled: a file is represented by what
 * they would read from it (the page texts, the paragraph texts), and by the
 * text that reading it as a plain-text file yields.
 */
module Extraction {
  import opened Text

  const TEXT_PLAIN := "text/plain"
  const PDF := "application/pdf"
  const DOCX := "application/vnd.openxmlformats-officedocument.wordprocessingml.document"
  const UNSUPPORTED := "Unsupported file type."

  /** An uploaded file as its readers see it. */
  datatype FileContent = FileContent(text: string, pages: seq<string>, paragraphs: seq<string>)

  /** `extract_text_from_pdf`: the page texts one after the other, with no separator. */
  method ExtractTextFromPdf(pages: seq<string>) returns (text: string)
    ensures text == Concat(pages)
    ensures forall k :: 0 <= k < |pages| ==>
      |Concat(pages[..k])| + |pages[k]| <= |text|
      && text[|Concat(pages[..k])|..|Concat(pages[..k])| + |pages[k]|] == pages[k]
  {
    text := "";
    var i := 0;
    while i < |pages|
      invariant 0 <= i <= |pages|
      invariant text == Concat(pages[..i])
    {
      text := text + pages[i];
      assert pages[..i + 1][..i] == pages[..i];
      i := i + 1;
    }
    assert pages[..i] == pages;
    forall k | 0 <= k < |pages|
      ensures |Concat(pages[..k])| + |pages[k]| <= |text|
      ensures text[|Concat(pages[..k])|..|Concat(pages[..k])| + |pages[k]|] == pages[k]
    {
      ConcatPartAt(pages, k);
    }
  }

  /** `extract_text_from_docx`: every paragraph followed by a newline. */
  method ExtractTextFromDocx(paragraphs: seq<string>) returns (text: string)
    ensures |paragraphs| == 0 ==> text == ""
    ensures |paragraphs| > 0 ==> text == Join("\n", paragraphs) + "\n"
  {
    text := "";
    var i := 0;
    while i < |paragraphs|
      invariant 0 <= i <= |paragraphs|
      invariant i == 0 ==> text == ""
      invariant i > 0 ==> text == Join("\n", paragraphs[..i]) + "\n"
    {
      if i > 0 {
        JoinAppend("\n", paragraphs[..i], paragraphs[i]);
      }
      assert paragraphs[..i] + [paragraphs[i]] == paragraphs[..i + 1];
      text := text + paragraphs[i] + "\n";
      i := i + 1;
    }
    assert paragraphs[..i] == paragraphs;
  }

  /**
   * The Word text splits back into its paragraphs, followed by the empty
   * piece after the final newline, when no paragraph holds a line break.
   */
  lemma {:induction false} DocxTextSplitsIntoParagraphs(paragraphs: seq<string>)
    requires |paragraphs| > 0
    requires forall k :: 0 <= k < |paragraphs| ==> '\n' !in paragraphs[k]
    ensures Split(Join("\n", paragraphs) + "\n", '\n') == paragraphs + [""]
  {
    var all := paragraphs + [""];
    forall k | 0 <= k < |all| ensures '\n' !in all[k] {
      if k < |paragraphs| {
        assert all[k] == paragraphs[k];
      }
    }
    assert "\n" == ['\n'];
    JoinAppend("\n", paragraphs, "");
    assert Join("\n", all) == Join("\n", paragraphs) + "\n";
    SplitJoin(all, '\n');
  }

  /** `process_uploaded_file`: plain text as read, PDF and Word text as extracted, anything else a sentinel. */
  method ProcessUploadedFile(fileType: string, content: FileContent) returns (text: string)
    ensures fileType == TEXT_PLAIN ==> text == content.text
    ensures fileType == PDF ==> text == Concat(content.pages)
    ensures fileType == DOCX && |content.paragraphs| == 0 ==> text == ""
    ensures fileType == DOCX && |content.paragraphs| > 0 ==> text == Join("\n", content.paragraphs) + "\n"
    ensures fileType !in {TEXT_PLAIN, PDF, DOCX} ==> text == UNSUPPORTED
  {
    if fileType == TEXT_PLAIN {
      text := content.text;
    } else if fileType == PDF {
      text := ExtractTextFromPdf(content.pages);
    } else if fileType == DOCX {
      text := ExtractTextFromDocx(content.paragraphs);
    } else {
      text := UNSUPPORTED;
    }
  }
}
