/** `process_ocr_data` of src/core/ocr_processor.py: OCR JSON of any of several
    layouts turned into the `words` / `boxes` lists of the layout model. Loading
    the image and the JSON file is I/O: the image size and the parsed JSON come in
    as parameters, and the returned image is not modelled. */
module OcrProcessor {
  import opened Wrappers
  import opened PyValue
  import Strings
  import Geometry
  import opened Loops
  import opened LayoutInput

  // ---------------------------------------------------------------------------
  // Flattening the JSON into items
  // ---------------------------------------------------------------------------

  /** The items `items.extend(value)` gathers from the list-valued entries of a dict,
      in key order; other values are ignored. */
  function DictListValues(es: seq<(string, Value)>): seq<Value>
    decreases |es|
  {
    if es == [] then []
    else
      var v := es[|es| - 1].1;
      DictListValues(es[..|es| - 1]) + (if v.List? then v.items else [])
  }

  /** The items walked by the main loop: the JSON itself when it is a list, the
      list-valued entries of a dict chained together, nothing otherwise. */
  function Items(ocrData: Value): seq<Value> {
    match ocrData
    case List(xs) => xs
    case Dict(es) => DictListValues(es)
    case _ => []
  }

  /** Entries of a dict contribute in order: those of a concatenation are those of
      each part. */
  lemma {:induction false} DictListValuesAppend(a: seq<(string, Value)>, b: seq<(string, Value)>)
    ensures DictListValues(a + b) == DictListValues(a) + DictListValues(b)
    decreases |b|
  {
    if b == [] {
      assert a + b == a;
    } else {
      assert (a + b)[..|a + b| - 1] == a + b[..|b| - 1];
      DictListValuesAppend(a, b[..|b| - 1]);
    }
  }

  /** A list-valued entry contributes its whole list; any other value contributes
      nothing. */
  lemma DictListValuesEntry(a: seq<(string, Value)>, key: string, v: Value)
    ensures DictListValues(a + [(key, v)]) == DictListValues(a) + (if v.List? then v.items else [])
  {
    assert (a + [(key, v)])[..|a|] == a;
  }

  // ---------------------------------------------------------------------------
  // One item
  // ---------------------------------------------------------------------------

  /** `item.get("text", "") or item.get("words", "")` */
  function ItemText(item: Value): Value
    requires item.Dict?
  {
    Or(DictGet(item, "text", Str("")), DictGet(item, "words", Str("")))
  }

  /** `item.get("box", []) or item.get("bbox", [])` */
  function ItemBox(item: Value): Value
    requires item.Dict?
  {
    Or(DictGet(item, "box", List([])), DictGet(item, "bbox", List([])))
  }

  /** A box of exactly four entries, as the loop demands before scaling it. */
  type Box4 = s: seq<Value> | |s| == 4 witness [PyNone, PyNone, PyNone, PyNone]

  /** The text and box an item contributes, or None where the loop `continue`s: a
      non-dict item, a text that is not a string or is blank, a box that is not a
      list of four. */
  function Candidate(item: Value): Option<(string, Box4)> {
    if !item.Dict? then None
    else
      var text := ItemText(item);
      var box := ItemBox(item);
      if !text.Str? || Strings.Strip(text.s) == [] then None
      else if !box.List? || |box.items| != 4 then None
      else Some((text.s, box.items))
  }

  /** The conditions under which an item is kept, in both directions, with the text
      kept unstripped. */
  lemma CandidateKept(item: Value, text: string, box: Box4)
    ensures Candidate(item) == Some((text, box)) <==>
      item.Dict? && ItemText(item) == Str(text) && Strings.Strip(text) != [] &&
      ItemBox(item) == List(box)
  {
  }

  /** The `words` key is read only when `text` is missing or falsy, and `bbox` only
      when `box` is missing or falsy. */
  lemma KeyFallbacks(item: Value)
    requires item.Dict?
    ensures Truthy(DictGet(item, "text", Str(""))) ==> ItemText(item) == DictGet(item, "text", Str(""))
    ensures !Truthy(DictGet(item, "text", Str(""))) ==> ItemText(item) == DictGet(item, "words", Str(""))
    ensures Truthy(DictGet(item, "box", List([]))) ==> ItemBox(item) == DictGet(item, "box", List([]))
    ensures !Truthy(DictGet(item, "box", List([]))) ==> ItemBox(item) == DictGet(item, "bbox", List([]))
  {
  }

  // ---------------------------------------------------------------------------
  // The filtering loop
  // ---------------------------------------------------------------------------

  /** The lists after the loop has walked `items`, or Raises once `normalize_bbox`
      meets a box entry that is not a number or divides by a zero image size. */
  function Process(items: seq<Value>, width: nat, height: nat): Py<ModelInput>
    decreases |items|
  {
    if items == [] then Ok(ModelInput([], []))
    else match Process(items[..|items| - 1], width, height)
      case Raises => Raises
      case Ok(m) =>
        match Candidate(items[|items| - 1])
        case None => Ok(m)
        case Some((text, box)) =>
          match Numbers(box)
          case None => Raises
          case Some(cs) =>
            if width == 0 || height == 0 then Raises
            else Ok(Append(m, text, Geometry.NormalizeBBox(cs, width, height)))
  }

  /** Once the loop has raised, walking more items does not undo it. */
  lemma {:induction false} ProcessRaisesStays(items: seq<Value>, n: nat, width: nat, height: nat)
    requires n <= |items|
    requires Process(items[..n], width, height) == Raises
    ensures Process(items, width, height) == Raises
    decreases |items| - n
  {
    if n < |items| {
      assert items[..n + 1][..n] == items[..n];
      ProcessRaisesStays(items, n + 1, width, height);
    } else {
      assert items[..n] == items;
    }
  }

  /** The first loop of `process_ocr_data`: the items to walk. */
  method GatherItems(ocrData: Value) returns (items: seq<Value>)
    ensures items == Items(ocrData)
  {
    items := [];
    if ocrData.List? {
      items := ocrData.items;
    } else if ocrData.Dict? {
      var es := ocrData.entries;
      for k := 0 to |es|
        invariant items == DictListValues(es[..k])
      {
        assert es[..k + 1][..k] == es[..k];
        if es[k].1.List? {
          items := items + es[k].1.items;
        }
      }
      assert es[..|es|] == es;
    }
  }

  /** The main loop of `process_ocr_data`: the checks of each item, then the scaled
      box. */
  method CollectTokens(items: seq<Value>, width: nat, height: nat) returns (r: Py<ModelInput>)
    ensures r == Process(items, width, height)
  {
    var words: seq<string> := [];
    var boxes: seq<seq<int>> := [];
    for j := 0 to |items|
      invariant Process(items[..j], width, height) == Ok(ModelInput(words, boxes))
    {
      assert items[..j + 1][..j] == items[..j];
      var item := items[j];
      if !item.Dict? {
        continue;
      }
      var text := ItemText(item);
      var box := ItemBox(item);
      if !text.Str? || Strings.Strip(text.s) == [] {
        continue;
      }
      if !box.List? || |box.items| != 4 {
        continue;
      }
      var coords := Numbers(box.items);
      if coords.None? || width == 0 || height == 0 {
        ProcessRaisesStays(items, j + 1, width, height);
        return Raises;
      }
      words := words + [text.s];
      boxes := boxes + [Geometry.NormalizeBBox(coords.value, width, height)];
    }
    assert items[..|items|] == items;
    return Ok(ModelInput(words, boxes));
  }

  /** `process_ocr_data(image, json)` on the image size and the parsed JSON. */
  method ProcessOcrData(width: nat, height: nat, ocrData: Value) returns (r: Py<ModelInput>)
    ensures r == Process(Items(ocrData), width, height)
  {
    var items := GatherItems(ocrData);
    r := CollectTokens(items, width, height);
  }

  // ---------------------------------------------------------------------------
  // Properties
  // ---------------------------------------------------------------------------

  /** Every kept box holds four numbers. */
  predicate AllNumeric(kept: seq<(string, Box4)>) {
    forall k :: 0 <= k < |kept| ==> Numbers(kept[k].1).Some?
  }

  /** Token `k` of `m` is the `k`-th kept item: its text unchanged and its box
      scaled by `normalize_bbox`. */
  predicate Tokens(m: ModelInput, kept: seq<(string, Box4)>, width: nat, height: nat) {
    |m.words| == |kept| && |m.boxes| == |kept| &&
    forall k :: 0 <= k < |kept| ==>
      width > 0 && height > 0 &&
      Numbers(kept[k].1).Some? &&
      m.words[k] == kept[k].0 &&
      m.boxes[k] == Geometry.NormalizeBBox(Numbers(kept[k].1).value, width, height)
  }

  lemma AllNumericSnoc(kept: seq<(string, Box4)>, x: (string, Box4))
    ensures AllNumeric(kept + [x]) <==> AllNumeric(kept) && Numbers(x.1).Some?
  {
    assert forall k :: 0 <= k < |kept| ==> (kept + [x])[k] == kept[k];
    assert (kept + [x])[|kept|] == x;
  }

  lemma TokensSnoc(m: ModelInput, kept: seq<(string, Box4)>, x: (string, Box4), width: nat, height: nat)
    requires width > 0 && height > 0
    requires Tokens(m, kept, width, height) && Numbers(x.1).Some?
    ensures Tokens(Append(m, x.0, Geometry.NormalizeBBox(Numbers(x.1).value, width, height)), kept + [x], width, height)
  {
    assert forall k :: 0 <= k < |kept| ==> (kept + [x])[k] == kept[k];
  }

  /** The loop is a filter over the items: it succeeds exactly when every kept box
      holds four numbers and, if any box is kept, the image has a size; then its
      tokens are the kept items in order. */
  lemma {:induction false} ProcessIsFilter(items: seq<Value>, width: nat, height: nat)
    ensures Process(items, width, height).Ok? <==>
      AllNumeric(FilterMap(Candidate, items)) && (FilterMap(Candidate, items) != [] ==> width > 0 && height > 0)
    ensures Process(items, width, height).Ok? ==>
      Tokens(Process(items, width, height).value, FilterMap(Candidate, items), width, height)
    decreases |items|
  {
    if items != [] {
      var init := items[..|items| - 1];
      ProcessIsFilter(init, width, height);
      var kept0 := FilterMap(Candidate, init);
      var c := Candidate(items[|items| - 1]);
      if c.Some? {
        var kept := kept0 + [c.value];
        assert FilterMap(Candidate, items) == kept;
        AllNumericSnoc(kept0, c.value);
        if Process(init, width, height).Ok? && Numbers(c.value.1).Some? && width > 0 && height > 0 {
          var m0 := Process(init, width, height).value;
          TokensSnoc(m0, kept0, c.value, width, height);
        }
      }
    }
  }

  /** Equal lengths, at most one token per item, and only non-blank words; no
      fallback token is ever added. */
  lemma ProcessShape(items: seq<Value>, width: nat, height: nat)
    requires Process(items, width, height).Ok?
    ensures var m := Process(items, width, height).value;
      Aligned(m) && |m.words| <= |items| &&
      (forall k :: 0 <= k < |m.words| ==> Strings.Strip(m.words[k]) != []) &&
      (forall k :: 0 <= k < |m.boxes| ==> |m.boxes[k]| == 4)
  {
    ProcessIsFilter(items, width, height);
    FilterMapBound(Candidate, items);
    var kept := FilterMap(Candidate, items);
    var m := Process(items, width, height).value;
    forall k | 0 <= k < |m.words| ensures Strings.Strip(m.words[k]) != [] {
      var j := FilterMapOrigin(Candidate, items, k);
    }
  }

  /** A page none of whose items survives gives two empty lists. */
  lemma NoFallback(items: seq<Value>, width: nat, height: nat)
    requires forall j :: 0 <= j < |items| ==> Candidate(items[j]).None?
    ensures Process(items, width, height) == Ok(ModelInput([], []))
  {
    ProcessIsFilter(items, width, height);
    if |FilterMap(Candidate, items)| > 0 {
      var j := FilterMapOrigin(Candidate, items, 0);
    }
    assert FilterMap(Candidate, items) == [];
  }

  /** JSON that is neither a list nor a dict (a number, a string, null) gives no items. */
  lemma ScalarJsonHasNoItems(ocrData: Value)
    requires !ocrData.List? && !ocrData.Dict?
    ensures Items(ocrData) == []
  {
  }
}
