/** The records of schemas/data_models.py: one recognised line, the image
    metadata, and the page result whose `full_text` is derived from its lines. */
module Schema {
  import Strings

  /** `OCRLine`: the text, its box `[x_min, y_min, x_max, y_max]` and the confidence. */
  datatype OCRLine = OCRLine(text: string, bbox: seq<int>, confidence: real)

  /** `OCRMetadata` */
  datatype OCRMetadata = OCRMetadata(fileName: string, imageWidth: int, imageHeight: int)

  /** `[line.text for line in lines]` */
  function Texts(lines: seq<OCRLine>): seq<string> {
    seq(|lines|, k requires 0 <= k < |lines| => lines[k].text)
  }

  /** `"\n".join(line.text for line in lines)` */
  function FullText(lines: seq<OCRLine>): string {
    Strings.Join("\n", Texts(lines))
  }

  /** `OCRResult`, a mutable record: `update_full_text` assigns `full_text` in place. */
  class OCRResult {
    var pageId: int
    var metadata: OCRMetadata
    var lines: seq<OCRLine>
    var fullText: string

    /** `OCRResult(metadata=..., lines=...)`: `page_id` defaults to 1, `full_text` to "". */
    constructor (metadata: OCRMetadata, lines: seq<OCRLine>)
      ensures this.metadata == metadata && this.lines == lines
      ensures pageId == 1 && fullText == ""
    {
      this.pageId := 1;
      this.metadata := metadata;
      this.lines := lines;
      this.fullText := "";
    }

    /** `update_full_text()`: only `full_text` changes, and it becomes the lines' texts
        joined by newlines. */
    method UpdateFullText()
      modifies this`fullText
      ensures fullText == FullText(lines)
      ensures lines == old(lines) && metadata == old(metadata) && pageId == old(pageId)
    {
      fullText := Strings.Join("\n", Texts(lines));
    }
  }

  /** Updating twice leaves the same `full_text` as updating once. */
  method UpdateFullTextTwice(r: OCRResult)
    modifies r
    ensures r.fullText == FullText(old(r.lines)) && r.lines == old(r.lines)
  {
    r.UpdateFullText();
    ghost var once := r.fullText;
    r.UpdateFullText();
    assert r.fullText == once;
  }

  /** A page without lines has an empty `full_text`. */
  lemma FullTextEmpty()
    ensures FullText([]) == ""
  {
  }

  /** `full_text` holds every line's text plus one newline between neighbours. */
  lemma FullTextLength(lines: seq<OCRLine>)
    ensures |FullText(lines)| == Strings.TotalLength(Texts(lines)) + (if |lines| == 0 then 0 else |lines| - 1)
  {
    Strings.JoinLength("\n", Texts(lines));
  }

  /** When no line text holds a newline, splitting `full_text` at newlines gives the
      line texts back, in order. */
  lemma FullTextSplitsBack(lines: seq<OCRLine>)
    requires |lines| > 0
    requires forall k :: 0 <= k < |lines| ==> '\n' !in lines[k].text
    ensures Strings.Split(FullText(lines), '\n') == Texts(lines)
  {
    Strings.SplitJoin(Texts(lines), '\n');
  }

  /** Appending a line appends a newline and its text. */
  lemma FullTextSnoc(lines: seq<OCRLine>, line: OCRLine)
    ensures FullText(lines + [line]) == if lines == [] then line.text else FullText(lines) + "\n" + line.text
  {
    assert Texts(lines + [line]) == Texts(lines) + [line.text];
    Strings.JoinSnoc("\n", Texts(lines), line.text);
  }
}
