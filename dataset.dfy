/** `LayoutLMDataset.__getitem__` of src/dataset.py, up to the processor call: the
    `words` / `boxes` lists read from one page's OCR JSON, the empty-page fallback,
    and the label id. Opening the image and the JSON file is I/O: the image size
    and the parsed JSON come in as parameters. */
module Dataset {
  import opened Wrappers
  import opened PyValue
  import Strings
  import BoxUtils
  import opened LayoutInput

  // ---------------------------------------------------------------------------
  // One line
  // ---------------------------------------------------------------------------

  /** What one entry of `lines` does to the lists: Raises where the body raises (a
      line that is not a dict, a text that is not a string, a box without `len`,
      a box of four entries that are not numbers, a zero image size), None where it
      is skipped (blank text, or a box whose length is not 4), otherwise the stripped
      text and the box from `normalize_box`. */
  function LineToken(line: Value, width: nat, height: nat): Py<Option<(string, seq<int>)>> {
    if !line.Dict? then Raises
    else
      var text := DictGet(line, "text", Str(""));
      var bbox := DictGet(line, "bbox", List([]));
      if !text.Str? then Raises
      else if Strings.Strip(text.s) == [] then Ok(None)
      else match Len(bbox)
        case None => Raises
        case Some(n) =>
          if n != 4 then Ok(None)
          else if !IsListOrTuple(bbox) then Raises
          else match Numbers(bbox.items)
            case None => Raises
            case Some(cs) =>
              if width == 0 || height == 0 then Raises
              else Ok(Some((Strings.Strip(text.s), BoxUtils.NormalizeBox(cs, width, height))))
  }

  /** A line is kept exactly when it is a dict whose stripped text is non-empty and
      whose box is a list or tuple of four numbers; the stored word is the stripped
      text and the stored box is `normalize_box` of the box. */
  lemma LineKept(line: Value, width: nat, height: nat, word: string, box: seq<int>)
    ensures LineToken(line, width, height) == Ok(Some((word, box))) <==>
      line.Dict? && width > 0 && height > 0 &&
      DictGet(line, "text", Str("")).Str? &&
      word == Strings.Strip(DictGet(line, "text", Str("")).s) && word != [] &&
      IsListOrTuple(DictGet(line, "bbox", List([]))) &&
      |DictGet(line, "bbox", List([])).items| == 4 &&
      Numbers(DictGet(line, "bbox", List([])).items).Some? &&
      box == BoxUtils.NormalizeBox(Numbers(DictGet(line, "bbox", List([])).items).value, width, height)
  {
  }

  /** A dict line with a string text is skipped exactly when its stripped text is
      empty or its box has a length other than 4 (`not text or len(bbox) != 4`,
      with `len` not even evaluated for a blank text). */
  lemma LineSkipped(line: Value, width: nat, height: nat)
    requires line.Dict? && DictGet(line, "text", Str("")).Str?
    ensures LineToken(line, width, height) == Ok(None) <==>
      (Strings.Strip(DictGet(line, "text", Str("")).s) == [] ||
       (Len(DictGet(line, "bbox", List([]))).Some? && Len(DictGet(line, "bbox", List([]))).value != 4))
  {
  }

  /** Every stored box lies on the 0..1000 grid and is ordered. */
  lemma LineBox(line: Value, width: nat, height: nat)
    requires LineToken(line, width, height).Ok? && LineToken(line, width, height).value.Some?
    ensures var (word, box) := LineToken(line, width, height).value.value;
      Strings.Strip(word) == word && word != [] &&
      |box| == 4 && (forall j :: 0 <= j < 4 ==> 0 <= box[j] <= 1000) && box[0] <= box[2] && box[1] <= box[3]
  {
    var text := DictGet(line, "text", Str(""));
    Strings.StripIdempotent(text.s);
  }

  // ---------------------------------------------------------------------------
  // The loop over the lines
  // ---------------------------------------------------------------------------

  /** The lines `for line in ocr_data.get("lines", [])` visits: only `lines` is read,
      and a JSON top level that is not a dict has no `get`. */
  function Lines(ocrData: Value): Py<seq<Value>> {
    if !ocrData.Dict? then Raises
    else Iter(DictGet(ocrData, "lines", List([])))
  }

  /** The lists after the loop has walked `lines`, or Raises once a line raises. */
  function Collect(lines: seq<Value>, width: nat, height: nat): Py<ModelInput>
    decreases |lines|
  {
    if lines == [] then Ok(ModelInput([], []))
    else match Collect(lines[..|lines| - 1], width, height)
      case Raises => Raises
      case Ok(m) =>
        match LineToken(lines[|lines| - 1], width, height)
        case Raises => Raises
        case Ok(None) => Ok(m)
        case Ok(Some((word, box))) => Ok(Append(m, word, box))
  }

  /** The words and boxes `__getitem__` hands to the processor. */
  function Encode(ocrData: Value, width: nat, height: nat): Py<ModelInput> {
    match Lines(ocrData)
    case Raises => Raises
    case Ok(lines) =>
      match Collect(lines, width, height)
      case Raises => Raises
      case Ok(m) => Ok(WithFallback(m))
  }

  lemma {:induction false} CollectRaisesStays(lines: seq<Value>, n: nat, width: nat, height: nat)
    requires n <= |lines| && Collect(lines[..n], width, height) == Raises
    ensures Collect(lines, width, height) == Raises
    decreases |lines| - n
  {
    if n < |lines| {
      assert lines[..n + 1][..n] == lines[..n];
      CollectRaisesStays(lines, n + 1, width, height);
    } else {
      assert lines[..n] == lines;
    }
  }

  /** The loop of `__getitem__` and the fallback after it. */
  method BuildInput(ocrData: Value, width: nat, height: nat) returns (r: Py<ModelInput>)
    ensures r == Encode(ocrData, width, height)
  {
    if !ocrData.Dict? {
      return Raises;
    }
    var source := Iter(DictGet(ocrData, "lines", List([])));
    if source.Raises? {
      return Raises;
    }
    var lines := source.value;
    var words: seq<string> := [];
    var boxes: seq<seq<int>> := [];
    for i := 0 to |lines|
      invariant Collect(lines[..i], width, height) == Ok(ModelInput(words, boxes))
    {
      assert lines[..i + 1][..i] == lines[..i];
      var step := LineToken(lines[i], width, height);
      if step.Raises? {
        CollectRaisesStays(lines, i + 1, width, height);
        return Raises;
      }
      if step.value.None? {
        continue;
      }
      words := words + [step.value.value.0];
      boxes := boxes + [step.value.value.1];
    }
    assert lines[..|lines|] == lines;
    if |words| == 0 {
      words := [" "];
      boxes := [[0, 0, 0, 0]];
    }
    return Ok(ModelInput(words, boxes));
  }

  // ---------------------------------------------------------------------------
  // Properties of the loop
  // ---------------------------------------------------------------------------

  /** The lists of a concatenation of lines are those of the first part followed by
      those of the second: line order is kept and each line contributes only its own
      token. The loop raises exactly when one of the parts does. */
  lemma {:induction false} CollectAppend(a: seq<Value>, b: seq<Value>, width: nat, height: nat)
    ensures Collect(a + b, width, height).Ok? <==>
      Collect(a, width, height).Ok? && Collect(b, width, height).Ok?
    ensures Collect(a + b, width, height).Ok? ==>
      Collect(a + b, width, height).value.words ==
        Collect(a, width, height).value.words + Collect(b, width, height).value.words &&
      Collect(a + b, width, height).value.boxes ==
        Collect(a, width, height).value.boxes + Collect(b, width, height).value.boxes
    decreases |b|
  {
    if b == [] {
      assert a + b == a;
    } else {
      var b' := b[..|b| - 1];
      assert (a + b)[..|a + b| - 1] == a + b';
      assert (a + b)[|a + b| - 1] == b[|b| - 1];
      CollectAppend(a, b', width, height);
    }
  }

  /** The lists are aligned, no longer than the lines, every word is stripped and
      non-blank, and every box is on the grid and ordered. */
  lemma {:induction false} CollectShape(lines: seq<Value>, width: nat, height: nat)
    requires Collect(lines, width, height).Ok?
    ensures var m := Collect(lines, width, height).value;
      Aligned(m) && |m.words| <= |lines| && BoxesInGrid(m) && BoxesOrdered(m) &&
      forall k :: 0 <= k < |m.words| ==> m.words[k] != [] && Strings.Strip(m.words[k]) == m.words[k]
    decreases |lines|
  {
    if lines != [] {
      CollectShape(lines[..|lines| - 1], width, height);
      var last := lines[|lines| - 1];
      if LineToken(last, width, height).value.Some? {
        LineBox(last, width, height);
      }
    }
  }

  /** A page whose every line is skipped (in particular a page without `lines`)
      becomes the one-token empty page. */
  lemma {:induction false} AllSkippedIsEmptyPage(ocrData: Value, width: nat, height: nat)
    requires Lines(ocrData).Ok?
    requires forall j :: 0 <= j < |Lines(ocrData).value| ==> LineToken(Lines(ocrData).value[j], width, height) == Ok(None)
    ensures Encode(ocrData, width, height) == Ok(EmptyPage)
  {
    AllSkippedCollect(Lines(ocrData).value, width, height);
  }

  lemma {:induction false} AllSkippedCollect(lines: seq<Value>, width: nat, height: nat)
    requires forall j :: 0 <= j < |lines| ==> LineToken(lines[j], width, height) == Ok(None)
    ensures Collect(lines, width, height) == Ok(ModelInput([], []))
    decreases |lines|
  {
    if lines != [] {
      AllSkippedCollect(lines[..|lines| - 1], width, height);
    }
  }

  /** Without a `lines` key the page is the empty page. */
  lemma MissingLinesKey(ocrData: Value, width: nat, height: nat)
    requires ocrData.Dict? && !HasKey(ocrData, "lines")
    ensures Encode(ocrData, width, height) == Ok(EmptyPage)
  {
  }

  /** Whatever succeeds hands at least one token to the processor, with aligned
      lists whose boxes are on the grid and ordered. */
  lemma EncodeShape(ocrData: Value, width: nat, height: nat)
    requires Encode(ocrData, width, height).Ok?
    ensures var m := Encode(ocrData, width, height).value;
      |m.words| > 0 && Aligned(m) && BoxesInGrid(m) && BoxesOrdered(m)
  {
    var m := Collect(Lines(ocrData).value, width, height).value;
    CollectShape(Lines(ocrData).value, width, height);
    FallbackKeeps(m);
  }

  // ---------------------------------------------------------------------------
  // The label
  // ---------------------------------------------------------------------------

  /** `self.label2id[item["label"]]`: a missing `label` key or a label the mapping
      does not know raises. */
  function LabelId(label2id: map<string, int>, item: Value): (r: Py<int>)
    ensures r.Ok? <==> Subscript(item, "label").Ok? && Subscript(item, "label").value.Str? &&
                       Subscript(item, "label").value.s in label2id
    ensures r.Ok? ==> r.value == label2id[Subscript(item, "label").value.s]
  {
    match Subscript(item, "label")
    case Ok(Str(s)) => if s in label2id then Ok(label2id[s]) else Raises
    case _ => Raises
  }

  /** What `__getitem__` produces before the tensors: the processor's inputs and the
      label id stored under `labels`. */
  datatype Example = Example(input: ModelInput, labelId: int)

  /** `__getitem__` on one pair: the lists first, then the label; either may raise. */
  method GetItem(label2id: map<string, int>, item: Value, ocrData: Value, width: nat, height: nat)
    returns (r: Py<Example>)
    ensures r.Ok? <==> Encode(ocrData, width, height).Ok? && LabelId(label2id, item).Ok?
    ensures r.Ok? ==> r.value == Example(Encode(ocrData, width, height).value, LabelId(label2id, item).value)
  {
    var input := BuildInput(ocrData, width, height);
    if input.Raises? {
      return Raises;
    }
    var labelId := LabelId(label2id, item);
    if labelId.Raises? {
      return Raises;
    }
    return Ok(Example(input.value, labelId.value));
  }
}
