/** `DocumentClassifier.predict` of src/core/classifier.py: an `OCRResult`'s lines
    turned into the layout model's `words` / `boxes`, the empty-page fallback, the
    label lookup and the error results. Loading the model, opening the image and the
    forward pass are foreign calls: whether the model loaded, the image's size (or
    the failure to open it) and the inference step come in as parameters. */
module Classifier {
  import opened Wrappers
  import opened PyValue
  import opened Schema
  import Geometry
  import BoxUtils
  import opened LayoutInput

  /** `self.classes`, in the order of the model's output logits. */
  const Classes: seq<string> := [
    "advertisement", "budget", "email", "file folder", "form",
    "handwritten", "invoice", "letter", "memo", "news article",
    "presentation", "questionnaire", "resume", "scientific publication",
    "scientific report", "specification"
  ]

  /** The dict `predict` returns: `labelName` is its `"label"` entry. */
  datatype Prediction = Prediction(labelName: string, confidence: real)

  /** `{"label": "error", "confidence": 0.0}` */
  const ErrorResult: Prediction := Prediction("error", 0.0)

  // ---------------------------------------------------------------------------
  // Preprocessing
  // ---------------------------------------------------------------------------

  function AsReals(xs: seq<int>): (r: seq<real>)
    ensures |r| == |xs| && forall k :: 0 <= k < |xs| ==> r[k] == xs[k] as real
  {
    seq(|xs|, k requires 0 <= k < |xs| => xs[k] as real)
  }

  /** `[max(0, min(1000, x)) for x in box]`: every entry pulled into the grid, each on
      its own, with no reordering. */
  function ClampAll(box: seq<int>): (r: seq<int>)
    ensures |r| == |box|
    ensures forall k :: 0 <= k < |box| ==> 0 <= r[k] <= 1000
    ensures forall k :: 0 <= k < |box| ==> (0 <= box[k] <= 1000 ==> r[k] == box[k])
    ensures forall k :: 0 <= k < |box| ==> (box[k] < 0 ==> r[k] == 0) && (box[k] > 1000 ==> r[k] == 1000)
  {
    seq(|box|, k requires 0 <= k < |box| => BoxUtils.Clamp(box[k]))
  }

  /** The box of one line: `normalize_bbox(line.bbox, width, height)`, clamped; None
      where `normalize_bbox` raises (fewer than four coordinates, a zero image size). */
  function LineBox(line: OCRLine, width: nat, height: nat): Option<seq<int>> {
    if |line.bbox| < 4 || width == 0 || height == 0 then None
    else Some(ClampAll(Geometry.NormalizeBBox(AsReals(line.bbox), width, height)))
  }

  /** The lists after the loop has walked `lines`: one word and one box per line, or
      Raises once a box cannot be computed. */
  function Encode(lines: seq<OCRLine>, width: nat, height: nat): Py<ModelInput>
    decreases |lines|
  {
    if lines == [] then Ok(ModelInput([], []))
    else match Encode(lines[..|lines| - 1], width, height)
      case Raises => Raises
      case Ok(m) =>
        var line := lines[|lines| - 1];
        match LineBox(line, width, height)
        case None => Raises
        case Some(box) => Ok(Append(m, line.text, box))
  }

  lemma {:induction false} EncodeRaisesStays(lines: seq<OCRLine>, n: nat, width: nat, height: nat)
    requires n <= |lines| && Encode(lines[..n], width, height) == Raises
    ensures Encode(lines, width, height) == Raises
    decreases |lines| - n
  {
    if n < |lines| {
      assert lines[..n + 1][..n] == lines[..n];
      EncodeRaisesStays(lines, n + 1, width, height);
    } else {
      assert lines[..n] == lines;
    }
  }

  /** Step 1 of `predict`: the loop over `ocr_result.lines`. */
  method Preprocess(lines: seq<OCRLine>, width: nat, height: nat) returns (r: Py<ModelInput>)
    ensures r == Encode(lines, width, height)
  {
    var words: seq<string> := [];
    var boxes: seq<seq<int>> := [];
    for i := 0 to |lines|
      invariant Encode(lines[..i], width, height) == Ok(ModelInput(words, boxes))
    {
      assert lines[..i + 1][..i] == lines[..i];
      words := words + [lines[i].text];
      if |lines[i].bbox| < 4 || width == 0 || height == 0 {
        EncodeRaisesStays(lines, i + 1, width, height);
        return Raises;
      }
      var box := Geometry.NormalizeBBox(AsReals(lines[i].bbox), width, height);
      box := ClampAll(box);
      boxes := boxes + [box];
    }
    assert lines[..|lines|] == lines;
    return Ok(ModelInput(words, boxes));
  }

  /** Token `k` of `m` is line `k`'s text with line `k`'s clamped box. */
  predicate OnePerLine(m: ModelInput, lines: seq<OCRLine>, width: nat, height: nat) {
    |m.words| == |lines| && |m.boxes| == |lines| &&
    forall k :: 0 <= k < |lines| ==> m.words[k] == lines[k].text && Some(m.boxes[k]) == LineBox(lines[k], width, height)
  }

  lemma OnePerLineSnoc(m: ModelInput, lines: seq<OCRLine>, line: OCRLine, box: seq<int>, width: nat, height: nat)
    requires OnePerLine(m, lines, width, height) && LineBox(line, width, height) == Some(box)
    ensures OnePerLine(Append(m, line.text, box), lines + [line], width, height)
  {
    assert forall k :: 0 <= k < |lines| ==> (lines + [line])[k] == lines[k];
  }

  /** Every line has boxes that can be computed. */
  predicate AllBoxed(lines: seq<OCRLine>, width: nat, height: nat) {
    forall k :: 0 <= k < |lines| ==> LineBox(lines[k], width, height).Some?
  }

  lemma AllBoxedSnoc(lines: seq<OCRLine>, line: OCRLine, width: nat, height: nat)
    ensures AllBoxed(lines + [line], width, height) <==> AllBoxed(lines, width, height) && LineBox(line, width, height).Some?
  {
    assert forall k :: 0 <= k < |lines| ==> (lines + [line])[k] == lines[k];
    assert (lines + [line])[|lines|] == line;
  }

  /** There is no filtering: the loop succeeds exactly when every line's box can be
      computed, and then token `k` is line `k`'s text with line `k`'s clamped box. */
  lemma {:induction false} EncodeOnePerLine(lines: seq<OCRLine>, width: nat, height: nat)
    ensures Encode(lines, width, height).Ok? <==> AllBoxed(lines, width, height)
    ensures Encode(lines, width, height).Ok? ==> OnePerLine(Encode(lines, width, height).value, lines, width, height)
    decreases |lines|
  {
    if lines != [] {
      var init := lines[..|lines| - 1];
      var line := lines[|lines| - 1];
      assert lines == init + [line];
      EncodeOnePerLine(init, width, height);
      AllBoxedSnoc(init, line, width, height);
      if Encode(init, width, height).Ok? && LineBox(line, width, height).Some? {
        OnePerLineSnoc(Encode(init, width, height).value, init, line, LineBox(line, width, height).value, width, height);
      }
    }
  }

  /** A line's box can be computed exactly when it has four coordinates and the
      image has a size. */
  lemma LineBoxDefined(line: OCRLine, width: nat, height: nat)
    ensures LineBox(line, width, height).Some? <==> |line.bbox| >= 4 && width > 0 && height > 0
  {
  }

  /** Every box handed to the model is on the grid, whatever the line's coordinates. */
  lemma {:induction false} EncodeInGrid(lines: seq<OCRLine>, width: nat, height: nat)
    requires Encode(lines, width, height).Ok?
    ensures BoxesInGrid(Encode(lines, width, height).value)
    decreases |lines|
  {
    if lines != [] {
      EncodeInGrid(lines[..|lines| - 1], width, height);
    }
  }

  /** A box inside the image keeps its truncated scaling: the clamp only acts on
      coordinates outside the image. */
  lemma LineBoxInsideImage(line: OCRLine, width: nat, height: nat)
    requires |line.bbox| >= 4 && width > 0 && height > 0
    requires forall k :: 0 <= k < 4 ==> 0 <= line.bbox[k] <= (if k % 2 == 0 then width else height)
    ensures LineBox(line, width, height) == Some(Geometry.NormalizeBBox(AsReals(line.bbox), width, height))
  {
    var b := Geometry.NormalizeBBox(AsReals(line.bbox), width, height);
    forall k | 0 <= k < 4 ensures 0 <= b[k] <= 1000 {
      Geometry.ScaleCoordInRange(AsReals(line.bbox)[k], if k % 2 == 0 then width else height);
    }
    assert ClampAll(b) == b;
  }

  // ---------------------------------------------------------------------------
  // The prediction
  // ---------------------------------------------------------------------------

  /** What `predict` returns. `image` is the size of the opened image, or Raises when
      it cannot be opened; `infer` stands for the processor and the forward pass and
      gives the arg-max index and its probability, or Raises. */
  function Classify(modelLoaded: bool, image: Py<(nat, nat)>, lines: seq<OCRLine>,
                    infer: ModelInput -> Py<(nat, real)>): Prediction
  {
    if !modelLoaded then ErrorResult
    else match image
      case Raises => ErrorResult
      case Ok((width, height)) =>
        match Encode(lines, width, height)
        case Raises => ErrorResult
        case Ok(m) =>
          match infer(WithFallback(m))
          case Raises => ErrorResult
          case Ok((idx, conf)) => if idx < |Classes| then Prediction(Classes[idx], conf) else ErrorResult
  }

  /** `predict(image_path, ocr_result)` */
  method Predict(modelLoaded: bool, image: Py<(nat, nat)>, ocrResult: OCRResult,
                 infer: ModelInput -> Py<(nat, real)>) returns (r: Prediction)
    ensures r == Classify(modelLoaded, image, ocrResult.lines, infer)
  {
    if !modelLoaded {
      return ErrorResult;
    }
    if image.Raises? {
      return ErrorResult;
    }
    var (width, height) := image.value;
    var encoded := Preprocess(ocrResult.lines, width, height);
    if encoded.Raises? {
      return ErrorResult;
    }
    var words := encoded.value.words;
    var boxes := encoded.value.boxes;
    if |words| == 0 {
      words := [" "];
      boxes := [[0, 0, 0, 0]];
    }
    var outputs := infer(ModelInput(words, boxes));
    if outputs.Raises? {
      return ErrorResult;
    }
    var (idx, conf) := outputs.value;
    if idx >= |Classes| {
      return ErrorResult;
    }
    return Prediction(Classes[idx], conf);
  }

  // ---------------------------------------------------------------------------
  // Properties
  // ---------------------------------------------------------------------------

  /** No class is called "error", so an error result is never mistaken for a label. */
  lemma ErrorIsNotAClass()
    ensures ErrorResult.labelName !in Classes
  {
  }

  /** The label is one of the sixteen classes, or the result is the error result. */
  lemma ClassifyLabel(modelLoaded: bool, image: Py<(nat, nat)>, lines: seq<OCRLine>,
                      infer: ModelInput -> Py<(nat, real)>)
    ensures var r := Classify(modelLoaded, image, lines, infer);
      r.labelName in Classes || r == ErrorResult
  {
  }

  /** A model that did not load, an image that cannot be opened and an inference that
      raises all give the error result. */
  lemma ClassifyErrors(image: Py<(nat, nat)>, lines: seq<OCRLine>, infer: ModelInput -> Py<(nat, real)>)
    ensures Classify(false, image, lines, infer) == ErrorResult
    ensures Classify(true, Raises, lines, infer) == ErrorResult
    ensures (forall m :: infer(m) == Raises) ==> Classify(true, image, lines, infer) == ErrorResult
  {
  }

  /** A real label is `classes[idx]` for the model's answer on the encoded lines,
      with the empty page standing in for a page without lines. */
  lemma ClassifyUsesEncoding(image: Py<(nat, nat)>, lines: seq<OCRLine>, infer: ModelInput -> Py<(nat, real)>)
    requires Classify(true, image, lines, infer) != ErrorResult
    ensures image.Ok? && Encode(lines, image.value.0, image.value.1).Ok?
    ensures var m := WithFallback(Encode(lines, image.value.0, image.value.1).value);
      infer(m).Ok? && infer(m).value.0 < |Classes| &&
      Classify(true, image, lines, infer) == Prediction(Classes[infer(m).value.0], infer(m).value.1)
    ensures lines == [] ==> WithFallback(Encode(lines, image.value.0, image.value.1).value) == EmptyPage
  {
  }
}
