/** `OCRParser.parse_raw_data` of ocr_service/parser.py: the engine's raw result,
    in whichever shape it came, turned into a list of `OCRLine`s.

    Two shapes are recognised, the parallel-array dict first:
      - a dict holding `rec_texts` (with `rec_scores` and `rec_polys` beside it);
      - a list of `[polygon, (text, score)]` items, given directly or under the
        first of the keys `dt_polys`, `ocr_result`, `res` that holds a list.
    Anything else gives no lines. In the legacy shape a malformed item is skipped
    on its own; in the parallel shape nothing guards the loop, so one malformed
    entry makes the whole call raise. */
module Parser {
  import opened Wrappers
  import opened PyValue
  import opened Schema
  import opened Loops

  /** The confidence given to a line that comes without a score. */
  const DefaultScore: real := 0.99

  /** The keys searched, in this order, for a wrapped legacy list. */
  const AliasKeys: seq<string> := ["dt_polys", "ocr_result", "res"]

  // ---------------------------------------------------------------------------
  // Polygon to box
  // ---------------------------------------------------------------------------

  /** `p[k]` of one polygon point, as a number; None where the source raises. */
  function Coord(p: Value, k: nat): Option<real> {
    match Index(p, k)
    case Ok(v) => Number(v)
    case Raises => None
  }

  /** `[p[k] for p in points]`, when every point yields a number. */
  function Coords(points: seq<Value>, k: nat): (r: Option<seq<real>>)
    ensures r.Some? <==> forall j :: 0 <= j < |points| ==> Coord(points[j], k).Some?
    ensures r.Some? ==> (|r.value| == |points| &&
      forall j :: 0 <= j < |points| ==> r.value[j] == Coord(points[j], k).value)
    decreases |points|
  {
    if points == [] then Some([])
    else match (Coord(points[0], k), Coords(points[1..], k))
      case (Some(c), Some(cs)) => Some([c] + cs)
      case _ => None
  }

  /** `min(xs)` */
  function MinOf(xs: seq<real>): (m: real)
    requires |xs| > 0
    ensures m in xs && forall j :: 0 <= j < |xs| ==> m <= xs[j]
    decreases |xs|
  {
    if |xs| == 1 then xs[0]
    else
      var rest := MinOf(xs[1..]);
      if xs[0] <= rest then xs[0] else rest
  }

  /** `max(xs)` */
  function MaxOf(xs: seq<real>): (m: real)
    requires |xs| > 0
    ensures m in xs && forall j :: 0 <= j < |xs| ==> xs[j] <= m
    decreases |xs|
  {
    if |xs| == 1 then xs[0]
    else
      var rest := MaxOf(xs[1..]);
      if xs[0] >= rest then xs[0] else rest
  }

  /** `[int(min(xs)), int(min(ys)), int(max(xs)), int(max(ys))]` */
  function CornerBox(xs: seq<real>, ys: seq<real>): (b: seq<int>)
    requires |xs| > 0 && |ys| > 0
    ensures |b| == 4 && b[0] <= b[2] && b[1] <= b[3]
  {
    TruncMonotone(MinOf(xs), MaxOf(xs));
    TruncMonotone(MinOf(ys), MaxOf(ys));
    [Trunc(MinOf(xs)), Trunc(MinOf(ys)), Trunc(MaxOf(xs)), Trunc(MaxOf(ys))]
  }

  /** The box of a polygon, with `xs` and `ys` the first and second coordinates of
      its points; None where the source raises (a non-iterable polygon, an empty
      one, a point that cannot be indexed twice, a coordinate that is not a number). */
  function PolygonToBBox(poly: Value): (r: Option<seq<int>>)
    ensures r.Some? ==> |r.value| == 4 && r.value[0] <= r.value[2] && r.value[1] <= r.value[3]
  {
    if Iter(poly).Raises? then None
    else
      var points := Iter(poly).value;
      var xs := Coords(points, 0);
      var ys := Coords(points, 1);
      if xs.None? || ys.None? || points == [] then None
      else Some(CornerBox(xs.value, ys.value))
  }

  // ---------------------------------------------------------------------------
  // The parallel-array shape
  // ---------------------------------------------------------------------------

  /** The three parallel lists `rec_texts`, `rec_scores` and `rec_polys`. */
  datatype Columns = Columns(texts: Value, scores: Value, boxes: Value)

  /** The line built at index `i` of the loop over the parallel arrays, or None
      where building it raises. */
  function ParallelLine(cols: Columns, i: nat): Option<OCRLine> {
    var Columns(texts, scores, boxes) := cols;
    match Index(texts, i)
    case Raises => None
    case Ok(text) =>
      match Len(scores)
      case None => None
      case Some(nScores) =>
        var score := if i < nScores then Index(scores, i) else Ok(Float(DefaultScore));
        if score.Raises? || Index(boxes, i).Raises? then None
        else match (PolygonToBBox(Index(boxes, i).value), Number(score.value))
          case (Some(bbox), Some(conf)) => Some(OCRLine(PyStr(text), bbox, conf))
          case _ => None
  }

  /** The parallel-array branch: `min(len(texts), len(boxes))` iterations. */
  function ParseParallel(raw: Value): Py<seq<OCRLine>>
    requires raw.Dict?
  {
    var texts := DictGet(raw, "rec_texts", List([]));
    var scores := DictGet(raw, "rec_scores", List([]));
    var boxes := DictGet(raw, "rec_polys", List([]));
    match (Len(texts), Len(boxes))
    case (Some(nt), Some(nb)) => TryMap(ParallelLine, Columns(texts, scores, boxes), if nt <= nb then nt else nb)
    case _ => Raises
  }

  // ---------------------------------------------------------------------------
  // The legacy list-of-pairs shape
  // ---------------------------------------------------------------------------

  /** The value the alias-key search leaves in `work_list`, starting from `keys`. */
  function FindAlias(raw: Value, keys: seq<string>): Value
    requires raw.Dict?
    decreases |keys|
  {
    if keys == [] then raw
    else match Lookup(raw.entries, keys[0])
      case Some(List(xs)) => List(xs)
      case _ => FindAlias(raw, keys[1..])
  }

  /** The items of `work_list` when it is a list; None when it is not (which makes
      the legacy branch return `[]`). */
  function WorkList(raw: Value): Option<seq<Value>> {
    var w := if raw.Dict? then FindAlias(raw, AliasKeys) else raw;
    if w.List? then Some(w.items) else None
  }

  /** The line parsed from one legacy item, or None where the item is skipped: not
      a two-element list or tuple, or raising inside the `try`. */
  function LegacyLine(item: Value): Option<OCRLine> {
    if !(IsListOrTuple(item) && |item.items| == 2) then None
    else
      var box := item.items[0];
      var content := item.items[1];
      var textAndScore: Option<(Value, Value)> :=
        if IsListOrTuple(content) then
          (if |content.items| >= 2 then Some((content.items[0], content.items[1])) else None)
        else Some((Str(PyStr(content)), Float(DefaultScore)));
      match textAndScore
      case None => None
      case Some((text, score)) =>
        match (PolygonToBBox(box), Number(score))
        case (Some(bbox), Some(conf)) => Some(OCRLine(PyStr(text), bbox, conf))
        case _ => None
  }

  // ---------------------------------------------------------------------------
  // parse_raw_data
  // ---------------------------------------------------------------------------

  /** What `parse_raw_data(raw)` returns, or Raises when it raises. */
  function Parse(raw: Value): Py<seq<OCRLine>> {
    if HasKey(raw, "rec_texts") then ParseParallel(raw)
    else match WorkList(raw)
      case None => Ok([])
      case Some(items) => Ok(FilterMap(LegacyLine, items))
  }

  /** The loop of the parallel branch over `range(n)`: it raises at the first
      entry that cannot be turned into a line. */
  method ParallelLoop(cols: Columns, n: nat) returns (r: Py<seq<OCRLine>>)
    ensures r == TryMap(ParallelLine, cols, n)
  {
    var parsedLines: seq<OCRLine> := [];
    for i := 0 to n
      invariant TryMap(ParallelLine, cols, i) == Ok(parsedLines)
    {
      var line := ParallelLine(cols, i);
      if line.None? {
        TryMapAborts(ParallelLine, cols, n, i);
        return Raises;
      }
      parsedLines := parsedLines + [line.value];
    }
    return Ok(parsedLines);
  }

  /** The alias-key search over a dict: the first alias holding a list, else the
      dict itself. */
  method FindWorkList(raw: Value) returns (workList: Value)
    requires raw.Dict?
    ensures workList == FindAlias(raw, AliasKeys)
  {
    workList := raw;
    var k := 0;
    while k < |AliasKeys|
      invariant 0 <= k <= |AliasKeys|
      invariant FindAlias(raw, AliasKeys) == FindAlias(raw, AliasKeys[k..])
      invariant workList == raw
    {
      var v := Lookup(raw.entries, AliasKeys[k]);
      if v.Some? && v.value.List? {
        workList := v.value;
        return;
      }
      assert AliasKeys[k..][1..] == AliasKeys[k + 1..];
      k := k + 1;
    }
    assert AliasKeys[k..] == [];
  }

  /** The loop of the legacy branch: a malformed item is skipped. */
  method LegacyLoop(items: seq<Value>) returns (parsedLines: seq<OCRLine>)
    ensures parsedLines == FilterMap(LegacyLine, items)
  {
    parsedLines := [];
    for j := 0 to |items|
      invariant parsedLines == FilterMap(LegacyLine, items[..j])
    {
      assert items[..j + 1][..j] == items[..j];
      var line := LegacyLine(items[j]);
      if line.Some? {
        parsedLines := parsedLines + [line.value];
      }
    }
    assert items[..|items|] == items;
  }

  /** `OCRParser.parse_raw_data`, step by step as the source does it. */
  method ParseRawData(raw: Value) returns (r: Py<seq<OCRLine>>)
    ensures r == Parse(raw)
  {
    // 1. The parallel-array format.
    if raw.Dict? && Lookup(raw.entries, "rec_texts").Some? {
      var texts := DictGet(raw, "rec_texts", List([]));
      var scores := DictGet(raw, "rec_scores", List([]));
      var boxes := DictGet(raw, "rec_polys", List([]));
      var nTexts := Len(texts);
      var nBoxes := Len(boxes);
      if nTexts.None? || nBoxes.None? {
        return Raises;
      }
      var minLen := if nTexts.value <= nBoxes.value then nTexts.value else nBoxes.value;
      r := ParallelLoop(Columns(texts, scores, boxes), minLen);
      return;
    }

    // 2. The legacy format, possibly wrapped under an alias key.
    var workList := raw;
    if raw.Dict? {
      workList := FindWorkList(raw);
    }
    if !workList.List? {
      return Ok([]);
    }
    var lines := LegacyLoop(workList.items);
    return Ok(lines);
  }

  // ---------------------------------------------------------------------------
  // Properties of the parallel branch
  // ---------------------------------------------------------------------------

  /** A dict holding `rec_texts` gives `min(len(rec_texts), len(rec_polys))` lines
      when it does not raise, line `i` built from entry `i` of each list; it
      raises exactly when one of those entries cannot be turned into a line. */
  lemma ParallelCount(raw: Value)
    requires HasKey(raw, "rec_texts")
    requires Len(DictGet(raw, "rec_texts", List([]))).Some? && Len(DictGet(raw, "rec_polys", List([]))).Some?
    ensures var texts := DictGet(raw, "rec_texts", List([]));
      var scores := DictGet(raw, "rec_scores", List([]));
      var boxes := DictGet(raw, "rec_polys", List([]));
      var n := if Len(texts).value <= Len(boxes).value then Len(texts).value else Len(boxes).value;
      (Parse(raw).Ok? <==> forall i :: 0 <= i < n ==> ParallelLine(Columns(texts, scores, boxes), i).Some?) &&
      (Parse(raw).Ok? ==> (|Parse(raw).value| == n &&
         forall i :: 0 <= i < n ==> Parse(raw).value[i] == ParallelLine(Columns(texts, scores, boxes), i).value))
  {
    var texts := DictGet(raw, "rec_texts", List([]));
    var scores := DictGet(raw, "rec_scores", List([]));
    var boxes := DictGet(raw, "rec_polys", List([]));
    var n := if Len(texts).value <= Len(boxes).value then Len(texts).value else Len(boxes).value;
    TryMapShape(ParallelLine, Columns(texts, scores, boxes), n);
  }

  /** `rec_texts` or `rec_polys` without a length (a number, None) makes `len` raise. */
  lemma ParallelNeedsLengths(raw: Value)
    requires HasKey(raw, "rec_texts")
    requires Len(DictGet(raw, "rec_texts", List([]))).None? || Len(DictGet(raw, "rec_polys", List([]))).None?
    ensures Parse(raw) == Raises
  {
  }

  /** The three parallel keys are distinct. */
  lemma ParallelKeysDistinct()
    ensures "rec_texts" != "rec_scores" && "rec_texts" != "rec_polys" && "rec_scores" != "rec_polys"
  {
    assert "rec_texts"[4] != "rec_polys"[4];
  }

  /** The parallel branch reads only `rec_texts`, `rec_scores` and `rec_polys`: two
      dicts that agree on those keys parse alike, whatever their alias keys hold. */
  lemma ParallelIgnoresOtherKeys(raw1: Value, raw2: Value)
    requires HasKey(raw1, "rec_texts") && HasKey(raw2, "rec_texts")
    requires Lookup(raw1.entries, "rec_texts") == Lookup(raw2.entries, "rec_texts")
    requires Lookup(raw1.entries, "rec_scores") == Lookup(raw2.entries, "rec_scores")
    requires Lookup(raw1.entries, "rec_polys") == Lookup(raw2.entries, "rec_polys")
    ensures Parse(raw1) == Parse(raw2)
  {
  }

  /** An index past the end of `rec_scores` gets confidence 0.99; one inside it gets
      the score stored there; the text is `str` of the stored text. */
  lemma ParallelScore(texts: Value, scores: Value, boxes: Value, i: nat)
    requires ParallelLine(Columns(texts, scores, boxes), i).Some?
    ensures Len(scores).Some? && Index(texts, i).Ok?
    ensures ParallelLine(Columns(texts, scores, boxes), i).value.text == PyStr(Index(texts, i).value)
    ensures i >= Len(scores).value ==> ParallelLine(Columns(texts, scores, boxes), i).value.confidence == DefaultScore
    ensures i < Len(scores).value ==>
      Index(scores, i).Ok? && Number(Index(scores, i).value) == Some(ParallelLine(Columns(texts, scores, boxes), i).value.confidence)
  {
  }

  /** No guard protects the parallel loop: a polygon without points at index 0 makes
      the whole parse raise, even though the next entry is well formed. */
  lemma ParallelEmptyPolygonAborts(poly: Value)
    ensures var raw := Dict([("rec_texts", List([Str("a"), Str("b")])),
                             ("rec_polys", List([List([]), poly]))]);
      Parse(raw) == Raises
  {
    var raw := Dict([("rec_texts", List([Str("a"), Str("b")])),
                     ("rec_polys", List([List([]), poly]))]);
    var cols := Columns(List([Str("a"), Str("b")]), List([]), List([List([]), poly]));
    ParallelKeysDistinct();
    assert DictGet(raw, "rec_texts", List([])) == cols.texts;
    assert DictGet(raw, "rec_scores", List([])) == cols.scores;
    assert raw.entries[1..] == [("rec_polys", cols.boxes)];
    assert Lookup(raw.entries[1..], "rec_polys") == Some(cols.boxes);
    assert DictGet(raw, "rec_polys", List([])) == cols.boxes;
    assert ParallelLine(cols, 0).None? by {
      assert Coords([], 0) == Some([]);
    }
    TryMapAborts(ParallelLine, cols, 2, 0);
  }

  // ---------------------------------------------------------------------------
  // Properties of the legacy branch
  // ---------------------------------------------------------------------------

  /** A dict without `rec_texts` is searched for `dt_polys`, then `ocr_result`, then
      `res`; the first that holds a list is used. If none does, the dict itself is
      the work list, and a dict is not a list. */
  lemma WorkListOfDict(raw: Value)
    requires raw.Dict?
    ensures var l0 := Lookup(raw.entries, "dt_polys");
      var l1 := Lookup(raw.entries, "ocr_result");
      var l2 := Lookup(raw.entries, "res");
      WorkList(raw) ==
        if l0.Some? && l0.value.List? then Some(l0.value.items)
        else if l1.Some? && l1.value.List? then Some(l1.value.items)
        else if l2.Some? && l2.value.List? then Some(l2.value.items)
        else None
  {
    assert AliasKeys[1..][1..][1..] == [];
  }

  /** Whatever is not a dict with `rec_texts` never raises: a work list that is not a
      list (None, a tuple, a bare dict, a scalar) gives no lines, and a list gives
      at most one line per item, each built from one of the items. */
  lemma LegacyNeverRaises(raw: Value)
    requires !HasKey(raw, "rec_texts")
    ensures Parse(raw).Ok?
    ensures WorkList(raw).None? ==> Parse(raw) == Ok([])
    ensures WorkList(raw).Some? ==>
      var items := WorkList(raw).value;
      |Parse(raw).value| <= |items| &&
      forall k :: 0 <= k < |Parse(raw).value| ==>
        exists j :: 0 <= j < |items| && LegacyLine(items[j]) == Some(Parse(raw).value[k])
  {
    if WorkList(raw).Some? {
      var items := WorkList(raw).value;
      FilterMapBound(LegacyLine, items);
      forall k | 0 <= k < |Parse(raw).value|
        ensures exists j :: 0 <= j < |items| && LegacyLine(items[j]) == Some(Parse(raw).value[k])
      {
        var j := FilterMapOrigin(LegacyLine, items, k);
      }
    }
  }

  /** A malformed item in a legacy list is dropped and nothing else: the lines of
      the items before and after it are kept, in order. */
  lemma LegacySkipsMalformed(a: seq<Value>, bad: Value, b: seq<Value>)
    requires LegacyLine(bad).None?
    ensures Parse(List(a + [bad] + b)) == Ok(FilterMap(LegacyLine, a) + FilterMap(LegacyLine, b))
  {
    FilterMapSkips(LegacyLine, a, bad, b);
  }

  /** A legacy list yields exactly one line for each well-formed item. */
  lemma LegacyAllWellFormed(items: seq<Value>)
    requires forall j :: 0 <= j < |items| ==> LegacyLine(items[j]).Some?
    ensures Parse(List(items)).Ok? && |Parse(List(items)).value| == |items|
    ensures forall j :: 0 <= j < |items| ==> Parse(List(items)).value[j] == LegacyLine(items[j]).value
  {
    FilterMapTotal(LegacyLine, items);
  }

  /** Items that are not `[box, content]` pairs are skipped. */
  lemma LegacyShape(item: Value)
    requires !IsListOrTuple(item) || |item.items| != 2
    ensures LegacyLine(item).None?
  {
  }

  /** Bare content that is not a list or tuple becomes the text, with confidence 0.99;
      a `(text, score)` pair gives `str(text)` and `float(score)`. */
  lemma LegacyContent(box: Value, content: Value)
    requires PolygonToBBox(box).Some?
    ensures !IsListOrTuple(content) ==>
      LegacyLine(List([box, content])) == Some(OCRLine(PyStr(content), PolygonToBBox(box).value, DefaultScore))
    ensures IsListOrTuple(content) && |content.items| >= 2 && Number(content.items[1]).Some? ==>
      LegacyLine(List([box, content])) ==
        Some(OCRLine(PyStr(content.items[0]), PolygonToBBox(box).value, Number(content.items[1]).value))
  {
  }

  /** An empty engine result gives no lines. */
  lemma EmptyInputs()
    ensures Parse(List([])) == Ok([])
    ensures Parse(PyNone) == Ok([])
    ensures Parse(Dict([])) == Ok([])
  {
    WorkListOfDict(Dict([]));
  }

  // ---------------------------------------------------------------------------
  // Properties of every emitted box
  // ---------------------------------------------------------------------------

  /** A box is `[int(min xs), int(min ys), int(max xs), int(max ys)]`: every point's
      truncated coordinates lie inside it, and each of its four edges is attained by a
      point. */
  lemma PolygonBBoxExtremes(poly: Value)
    requires PolygonToBBox(poly).Some?
    ensures var points := Iter(poly).value;
      var b := PolygonToBBox(poly).value;
      |points| > 0 &&
      (forall j :: 0 <= j < |points| ==> Coord(points[j], 0).Some? && Coord(points[j], 1).Some?) &&
      (forall j :: 0 <= j < |points| ==>
         b[0] <= Trunc(Coord(points[j], 0).value) <= b[2] && b[1] <= Trunc(Coord(points[j], 1).value) <= b[3]) &&
      (exists j :: 0 <= j < |points| && b[0] == Trunc(Coord(points[j], 0).value)) &&
      (exists j :: 0 <= j < |points| && b[2] == Trunc(Coord(points[j], 0).value)) &&
      (exists j :: 0 <= j < |points| && b[1] == Trunc(Coord(points[j], 1).value)) &&
      (exists j :: 0 <= j < |points| && b[3] == Trunc(Coord(points[j], 1).value))
  {
    var points := Iter(poly).value;
    var xs := Coords(points, 0).value;
    var ys := Coords(points, 1).value;
    forall j | 0 <= j < |points|
      ensures Trunc(MinOf(xs)) <= Trunc(xs[j]) <= Trunc(MaxOf(xs))
      ensures Trunc(MinOf(ys)) <= Trunc(ys[j]) <= Trunc(MaxOf(ys))
    {
      TruncMonotone(MinOf(xs), xs[j]);
      TruncMonotone(xs[j], MaxOf(xs));
      TruncMonotone(MinOf(ys), ys[j]);
      TruncMonotone(ys[j], MaxOf(ys));
    }
    var lo :| 0 <= lo < |xs| && xs[lo] == MinOf(xs);
    var hi :| 0 <= hi < |xs| && xs[hi] == MaxOf(xs);
    assert Trunc(Coord(points[lo], 0).value) == PolygonToBBox(poly).value[0];
    assert Trunc(Coord(points[hi], 0).value) == PolygonToBBox(poly).value[2];
    var ylo :| 0 <= ylo < |ys| && ys[ylo] == MinOf(ys);
    var yhi :| 0 <= yhi < |ys| && ys[yhi] == MaxOf(ys);
    assert Trunc(Coord(points[ylo], 1).value) == PolygonToBBox(poly).value[1];
    assert Trunc(Coord(points[yhi], 1).value) == PolygonToBBox(poly).value[3];
  }

  /** Every emitted box has four entries with `x_min <= x_max` and `y_min <= y_max`. */
  lemma ParsedBoxesOrdered(raw: Value)
    requires Parse(raw).Ok?
    ensures forall k :: 0 <= k < |Parse(raw).value| ==>
      var b := Parse(raw).value[k].bbox;
      |b| == 4 && b[0] <= b[2] && b[1] <= b[3]
  {
    if HasKey(raw, "rec_texts") {
      ParallelCount(raw);
    } else {
      LegacyNeverRaises(raw);
    }
  }

  /** The box of a list of points through its coordinate lists. */
  lemma ListBBox(points: seq<Value>, xs: seq<real>, ys: seq<real>)
    requires |points| > 0 && Coords(points, 0) == Some(xs) && Coords(points, 1) == Some(ys)
    ensures PolygonToBBox(List(points)) == Some(CornerBox(xs, ys))
  {
    IterList(points);
    CoordsLength(points, 0);
    CoordsLength(points, 1);
  }

  lemma IterList(points: seq<Value>)
    ensures Iter(List(points)) == Ok(points)
  {
  }

  lemma CoordsLength(points: seq<Value>, k: nat)
    requires Coords(points, k).Some?
    ensures |Coords(points, k).value| == |points|
  {
  }

  /** The points of an axis-aligned rectangle, corner by corner. */
  function Rectangle(x0: int, y0: int, x1: int, y1: int): seq<Value> {
    [List([Int(x0), Int(y0)]), List([Int(x1), Int(y0)]), List([Int(x1), Int(y1)]), List([Int(x0), Int(y1)])]
  }

  lemma RectangleCoords(x0: int, y0: int, x1: int, y1: int)
    ensures Coords(Rectangle(x0, y0, x1, y1), 0) == Some([x0 as real, x1 as real, x1 as real, x0 as real])
    ensures Coords(Rectangle(x0, y0, x1, y1), 1) == Some([y0 as real, y0 as real, y1 as real, y1 as real])
  {
    var p := Rectangle(x0, y0, x1, y1);
    assert p[3..][1..] == [];
    assert p[2..][1..] == p[3..];
    assert p[1..][1..] == p[2..];
    assert Coords(p[3..], 0).value == [x0 as real] && Coords(p[3..], 1).value == [y1 as real];
    assert Coords(p[2..], 0).value == [x1 as real, x0 as real];
    assert Coords(p[2..], 1).value == [y1 as real, y1 as real];
    assert Coords(p[1..], 0).value == [x1 as real, x1 as real, x0 as real];
    assert Coords(p[1..], 1).value == [y0 as real, y1 as real, y1 as real];
    assert Coords(p, 0).value == [x0 as real, x1 as real, x1 as real, x0 as real];
    assert Coords(p, 1).value == [y0 as real, y0 as real, y1 as real, y1 as real];
  }

  lemma MinMaxOfCorners(a: real, b: real)
    requires a <= b
    ensures MinOf([a, b, b, a]) == a && MaxOf([a, b, b, a]) == b
  {
  }

  lemma CornerBoxOfRectangle(x0: int, y0: int, x1: int, y1: int)
    requires x0 <= x1 && y0 <= y1
    ensures CornerBox([x0 as real, x1 as real, x1 as real, x0 as real],
                      [y0 as real, y0 as real, y1 as real, y1 as real]) == [x0, y0, x1, y1]
  {
    MinMaxOfCorners(x0 as real, x1 as real);
    MinMaxOfCorners(y0 as real, y1 as real);
    TruncOfInt(x0);
    TruncOfInt(y0);
    TruncOfInt(x1);
    TruncOfInt(y1);
  }

  /** A rectangle given corner by corner gives back its two corners as the box. */
  lemma RectangleBBox(x0: int, y0: int, x1: int, y1: int)
    requires x0 <= x1 && y0 <= y1
    ensures PolygonToBBox(List(Rectangle(x0, y0, x1, y1))) == Some([x0, y0, x1, y1])
  {
    RectangleCoords(x0, y0, x1, y1);
    CornerBoxOfRectangle(x0, y0, x1, y1);
    ListBBox(Rectangle(x0, y0, x1, y1), [x0 as real, x1 as real, x1 as real, x0 as real],
             [y0 as real, y0 as real, y1 as real, y1 as real]);
  }
}
