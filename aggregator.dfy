/** `OCRAggregator.run` of ocr_service/aggregator.py: one page image turned into an
    `OCRResult`. Opening the image and running the engine are I/O, so the image's
    size and the engine's raw output come in as parameters. */
module Aggregator {
  import opened PyValue
  import Strings
  import opened Schema
  import Parser

  /** `img_path.split("/")[-1]` */
  function FileName(imgPath: string): string {
    Strings.LastPiece(imgPath, '/')
  }

  /** The file name holds no `/` and is what follows the last `/` of the path (the
      whole path when it has none). */
  lemma FileNameIsLastComponent(imgPath: string)
    ensures '/' !in FileName(imgPath)
    ensures exists dir :: imgPath == dir + FileName(imgPath) && (dir == "" || dir[|dir| - 1] == '/')
  {
    Strings.LastPieceIsSuffix(imgPath, '/');
  }

  /** A path without `/` is its own file name. */
  lemma FileNameOfBareName(imgPath: string)
    requires '/' !in imgPath
    ensures FileName(imgPath) == imgPath
  {
    Strings.SplitFree(imgPath, '/');
  }

  /** `run(img_path)`: the parsed lines, the metadata and `full_text` derived after
      the lines are set. Only a raising parse makes it raise. */
  method Run(imgPath: string, width: int, height: int, raw: Value) returns (r: Py<OCRResult>)
    ensures r.Ok? <==> Parser.Parse(raw).Ok?
    ensures r.Ok? ==> fresh(r.value)
    ensures r.Ok? ==> r.value.lines == Parser.Parse(raw).value
    ensures r.Ok? ==> r.value.metadata == OCRMetadata(FileName(imgPath), width, height)
    ensures r.Ok? ==> r.value.pageId == 1 && r.value.fullText == FullText(r.value.lines)
  {
    var lines := Parser.ParseRawData(raw);
    if lines.Raises? {
      return Raises;
    }
    var result := new OCRResult(OCRMetadata(FileName(imgPath), width, height), lines.value);
    result.UpdateFullText();
    return Ok(result);
  }

  /** An engine that found nothing (`[]`) gives a page with no lines and an empty
      `full_text`. */
  method RunOnEmptyEngineOutput(imgPath: string, width: int, height: int) returns (r: Py<OCRResult>)
    ensures r.Ok? && r.value.lines == [] && r.value.fullText == ""
  {
    Parser.EmptyInputs();
    r := Run(imgPath, width, height, List([]));
    FullTextEmpty();
  }
}
