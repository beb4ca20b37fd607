/** The parallel `words` / `boxes` lists that every front end of the layout model
    builds from OCR output, and the one-token page used when nothing survives. */
module LayoutInput {

  /** `words[i]` is the text of token `i` and `boxes[i]` its box on the 0..1000 grid. */
  datatype ModelInput = ModelInput(words: seq<string>, boxes: seq<seq<int>>)

  /** `words = [" "]` and `boxes = [[0, 0, 0, 0]]` */
  const EmptyPage: ModelInput := ModelInput([" "], [[0, 0, 0, 0]])

  /** Both lists have one entry per token. */
  predicate Aligned(m: ModelInput) {
    |m.words| == |m.boxes|
  }

  /** Every box has four coordinates inside the 0..1000 grid. */
  predicate BoxesInGrid(m: ModelInput) {
    forall k :: 0 <= k < |m.boxes| ==> |m.boxes[k]| == 4 && forall j :: 0 <= j < 4 ==> 0 <= m.boxes[k][j] <= 1000
  }

  /** Every box is `[x_min, y_min, x_max, y_max]`. */
  predicate BoxesOrdered(m: ModelInput) {
    forall k :: 0 <= k < |m.boxes| ==> |m.boxes[k]| == 4 && m.boxes[k][0] <= m.boxes[k][2] && m.boxes[k][1] <= m.boxes[k][3]
  }

  /** One more token at the end. */
  function Append(m: ModelInput, word: string, box: seq<int>): ModelInput {
    ModelInput(m.words + [word], m.boxes + [box])
  }

  /** `if not words: words, boxes = [" "], [[0, 0, 0, 0]]` */
  function WithFallback(m: ModelInput): ModelInput {
    if m.words == [] then EmptyPage else m
  }

  /** The fallback never leaves the model without a token, and keeps the lists
      aligned, inside the grid and ordered. */
  lemma FallbackKeeps(m: ModelInput)
    ensures |WithFallback(m).words| > 0
    ensures Aligned(m) ==> Aligned(WithFallback(m))
    ensures BoxesInGrid(m) ==> BoxesInGrid(WithFallback(m))
    ensures BoxesOrdered(m) ==> BoxesOrdered(WithFallback(m))
  {
  }
}
