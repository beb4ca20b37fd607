/** `MultimodalRAG` of src/rag/multimodal_rag.py: the history prefix, the reranking
    choice among retrieved documents, and the branches of `answer`. The retriever,
    the file system, the reranking and vision LLM calls are parameters; the prompt
    templates they receive are abstracted to the values they are built from. */
module MultimodalRag {
  import opened Wrappers
  import opened PyValue
  import Strings
  import opened Loops

  // ---------------------------------------------------------------------------
  // The history prefix
  // ---------------------------------------------------------------------------

  const HistoryHeader: string := "이전 대화 내역:\n"

  /** `history_text` of `answer`: empty for a missing or empty history, otherwise the
      header, the entries one per line, and a blank line. */
  function HistoryText(history: Option<seq<string>>): (r: string)
    ensures r == "" <==> history.None? || history.value == []
  {
    if history.None? || history.value == [] then ""
    else HistoryHeader + Strings.Join("\n", history.value) + "\n\n"
  }

  /** A non-empty history whose entries hold no line break can be read back from the
      prefix: it is the header, then the lines between it and the closing blank
      line. */
  lemma HistoryTextReadBack(history: seq<string>)
    requires history != []
    requires forall k :: 0 <= k < |history| ==> '\n' !in history[k]
    ensures var r := HistoryText(Some(history));
      |r| >= |HistoryHeader| + 2 && r[..|HistoryHeader|] == HistoryHeader &&
      Strings.Split(r[|HistoryHeader|..|r| - 2], '\n') == history
  {
    var r := HistoryText(Some(history));
    var body := Strings.Join("\n", history);
    assert r == HistoryHeader + body + "\n\n";
    assert r[|HistoryHeader|..|r| - 2] == body;
    Strings.SplitJoin(history, '\n');
  }

  // ---------------------------------------------------------------------------
  // The candidate list shown to the reranker
  // ---------------------------------------------------------------------------

  /** `text[:800].replace("\n", " ")` */
  function Preview(text: string): (r: string)
    ensures |r| == (if |text| < 800 then |text| else 800)
    ensures forall i :: 0 <= i < |r| ==> r[i] == (if text[i] == '\n' then ' ' else text[i])
  {
    Strings.ReplaceChar(Strings.Take(text, 800), '\n', ' ')
  }

  /** `os.path.basename(p)`: the part after the last `/`. */
  function Basename(p: string): string {
    Strings.LastPiece(p, '/')
  }

  /** `doc["metadata"].get("filename", os.path.basename(doc["metadata"].get("file_path", "Unknown")))`,
      rendered with `str`. The default is evaluated first, so a `file_path` that is
      not a string raises even when `filename` is present. */
  function DocName(doc: Value): Option<string> {
    match Subscript(doc, "metadata")
    case Raises => None
    case Ok(md) =>
      if !md.Dict? then None
      else
        var path := DictGet(md, "file_path", Str("Unknown"));
        if !path.Str? then None
        else Some(PyStr(DictGet(md, "filename", Str(Basename(path.s)))))
  }

  /** The preview of `doc.get("text", "")`; slicing and `replace` need a string. */
  function DocPreview(doc: Value): Option<string> {
    if !doc.Dict? then None
    else
      var text := DictGet(doc, "text", Str(""));
      if !text.Str? then None else Some(Preview(text.s))
  }

  const Indent: string := "                "

  /** The block appended to `candidates_info` for candidate `i` (numbered from 1). */
  function Entry(i: nat, name: string, preview: string): string {
    "\n" + Indent + "[" + Strings.NatToString(i + 1) + "]\n" +
    Indent + "파일명: " + name + "\n" +
    Indent + "내용:\n" +
    Indent + preview + "\n" + Indent
  }

  /** The block of candidate `i`, or None where building it raises. */
  function CandidateEntry(cands: seq<Value>, i: nat): Option<string> {
    if i >= |cands| then None
    else match (DocName(cands[i]), DocPreview(cands[i]))
      case (Some(name), Some(preview)) => Some(Entry(i, name, preview))
      case _ => None
  }

  function Concat(parts: seq<string>): string
    decreases |parts|
  {
    if parts == [] then "" else Concat(parts[..|parts| - 1]) + parts[|parts| - 1]
  }

  /** `candidates_info` after the loop, or Raises where a candidate is malformed. */
  function CandidatesInfo(cands: seq<Value>): Py<string> {
    match TryMap(CandidateEntry, cands, |cands|)
    case Raises => Raises
    case Ok(parts) => Ok(Concat(parts))
  }

  /** The loop building `candidates_info`. */
  method BuildCandidatesInfo(cands: seq<Value>) returns (r: Py<string>)
    ensures r == CandidatesInfo(cands)
  {
    var info := "";
    ghost var parts: seq<string> := [];
    for i := 0 to |cands|
      invariant TryMap(CandidateEntry, cands, i) == Ok(parts) && info == Concat(parts)
    {
      var name := DocName(cands[i]);
      var preview := DocPreview(cands[i]);
      if name.None? || preview.None? {
        TryMapAborts(CandidateEntry, cands, |cands|, i);
        return Raises;
      }
      var entry := Entry(i, name.value, preview.value);
      assert Concat(parts + [entry]) == Concat(parts) + entry by {
        assert (parts + [entry])[..|parts|] == parts;
      }
      info := info + entry;
      parts := parts + [entry];
    }
    return Ok(info);
  }

  /** The list is built exactly when every candidate has a name and a text, and then
      it holds one block per candidate, numbered consecutively from 1. */
  lemma CandidatesInfoShape(cands: seq<Value>)
    ensures CandidatesInfo(cands).Ok? <==>
      forall i :: 0 <= i < |cands| ==> DocName(cands[i]).Some? && DocPreview(cands[i]).Some?
    ensures CandidatesInfo(cands).Ok? ==>
      var parts := TryMap(CandidateEntry, cands, |cands|).value;
      |parts| == |cands| && CandidatesInfo(cands).value == Concat(parts) &&
      forall i :: 0 <= i < |cands| ==>
        parts[i] == Entry(i, DocName(cands[i]).value, DocPreview(cands[i]).value)
  {
    TryMapShape(CandidateEntry, cands, |cands|);
    forall i | 0 <= i < |cands| ensures CandidateEntry(cands, i).Some? <==> DocName(cands[i]).Some? && DocPreview(cands[i]).Some? {
    }
  }

  // ---------------------------------------------------------------------------
  // The first number in the reply
  // ---------------------------------------------------------------------------

  /** Where `re.search(r"\d+", s)` starts: the first digit, or `|s|` if none. */
  function RunStart(s: string): (i: nat)
    ensures i <= |s|
    ensures i < |s| ==> Strings.IsDigit(s[i])
    ensures forall k :: 0 <= k < i ==> !Strings.IsDigit(s[k])
    decreases |s|
  {
    if s == [] then 0
    else if Strings.IsDigit(s[0]) then 0
    else 1 + RunStart(s[1..])
  }

  /** Where the run of digits from `i` ends: the match is greedy. */
  function RunEnd(s: string, i: nat): (j: nat)
    requires i <= |s|
    ensures i <= j <= |s|
    ensures forall k :: i <= k < j ==> Strings.IsDigit(s[k])
    ensures j < |s| ==> !Strings.IsDigit(s[j])
    decreases |s| - i
  {
    if i < |s| && Strings.IsDigit(s[i]) then RunEnd(s, i + 1) else i
  }

  /** `int(re.search(r"\d+", s).group())`, or None when there is no match. */
  function FirstNumber(s: string): (r: Option<nat>)
    ensures r.None? <==> forall k :: 0 <= k < |s| ==> !Strings.IsDigit(s[k])
  {
    var i := RunStart(s);
    if i == |s| then None
    else
      var j := RunEnd(s, i);
      Some(Strings.DigitsValue(s[i..j]))
  }

  /** A numeral after digit-free text, and not followed by another digit, is the
      number found. */
  lemma FirstNumberFinds(pre: string, n: nat, post: string)
    requires forall k :: 0 <= k < |pre| ==> !Strings.IsDigit(pre[k])
    requires post == [] || !Strings.IsDigit(post[0])
    ensures FirstNumber(pre + Strings.NatToString(n) + post) == Some(n)
  {
    var num := Strings.NatToString(n);
    var s := pre + num + post;
    assert s[|pre|] == num[0];
    assert forall k :: 0 <= k < |pre| ==> s[k] == pre[k];
    assert forall k :: 0 <= k < |num| ==> s[|pre| + k] == num[k];
    var i := RunStart(s);
    assert i == |pre|;
    var j := RunEnd(s, i);
    assert post != [] ==> s[|pre| + |num|] == post[0];
    assert j == |pre| + |num|;
    assert s[i..j] == num;
    Strings.NatToStringRoundTrip(n);
  }

  // ---------------------------------------------------------------------------
  // _select_best_doc
  // ---------------------------------------------------------------------------

  /** What `_select_best_doc` returns. `rerank` is the LLM's reply to the prompt
      built from the query and the candidate list (Raises when the call fails).
      Every failure inside the `try` falls back to the first candidate; with no
      candidates that fallback itself raises. */
  function BestDoc(query: string, cands: seq<Value>, rerank: (string, string) -> Py<string>): Py<Value> {
    if cands == [] then Raises
    else match CandidatesInfo(cands)
      case Raises => Ok(cands[0])
      case Ok(info) => Ok(Choose(cands, rerank(query, info)))
  }

  /** The candidate the reply designates: the `k`-th for a first number `k` in
      range, the first one otherwise or when the reply failed. */
  function Choose(cands: seq<Value>, reply: Py<string>): Value
    requires cands != []
  {
    match reply
    case Raises => cands[0]
    case Ok(text) =>
      match FirstNumber(Strings.Strip(text))
      case None => cands[0]
      case Some(k) => if 1 <= k <= |cands| then cands[k - 1] else cands[0]
  }

  /** `_select_best_doc(query, candidates)` */
  method SelectBestDoc(query: string, cands: seq<Value>, rerank: (string, string) -> Py<string>)
    returns (r: Py<Value>)
    ensures r == BestDoc(query, cands, rerank)
  {
    var info := BuildCandidatesInfo(cands);
    if |cands| == 0 {
      return Raises;
    }
    if info.Raises? {
      return Ok(cands[0]);
    }
    var reply := rerank(query, info.value);
    var doc := PickFromReply(cands, reply);
    return Ok(doc);
  }

  /** The part of `_select_best_doc` after the LLM call. */
  method PickFromReply(cands: seq<Value>, reply: Py<string>) returns (doc: Value)
    requires cands != []
    ensures doc == Choose(cands, reply)
  {
    if reply.Ok? {
      var found := FirstNumber(Strings.Strip(reply.value));
      if found.Some? {
        var idx := found.value as int - 1;
        if 0 <= idx < |cands| {
          return cands[idx];
        }
      }
    }
    return cands[0];
  }

  /** With at least one candidate the choice never fails and is one of them. */
  lemma BestDocIsCandidate(query: string, cands: seq<Value>, rerank: (string, string) -> Py<string>)
    ensures BestDoc(query, cands, rerank).Ok? <==> cands != []
    ensures cands != [] ==> BestDoc(query, cands, rerank).value in cands
  {
  }

  /** A reply whose first number `k` is between 1 and the number of candidates picks
      candidate `k`; every other reply, and every failure, picks the first. */
  lemma BestDocByNumber(query: string, cands: seq<Value>, rerank: (string, string) -> Py<string>)
    requires cands != []
    ensures var info := CandidatesInfo(cands);
      var reply := if info.Ok? then rerank(query, info.value) else Raises;
      var k := if reply.Ok? then FirstNumber(Strings.Strip(reply.value)) else None;
      BestDoc(query, cands, rerank) ==
        if k.Some? && 1 <= k.value <= |cands| then Ok(cands[k.value - 1]) else Ok(cands[0])
  {
  }

  /** A reply that is just the numeral `k`, for `k` in range, picks candidate `k`. */
  lemma BestDocOfNumeral(query: string, cands: seq<Value>, rerank: (string, string) -> Py<string>, k: nat)
    requires 1 <= k <= |cands|
    requires CandidatesInfo(cands).Ok? && rerank(query, CandidatesInfo(cands).value) == Ok(Strings.NatToString(k))
    ensures BestDoc(query, cands, rerank) == Ok(cands[k - 1])
  {
    var s := Strings.NatToString(k);
    assert Strings.IsStripped(s) by {
      assert !Strings.IsSpace(s[0]) && !Strings.IsSpace(s[|s| - 1]);
    }
    Strings.StrippedFixed(s);
    FirstNumberFinds("", k, "");
    assert "" + s + "" == s;
  }

  // ---------------------------------------------------------------------------
  // answer
  // ---------------------------------------------------------------------------

  const NoResultsAnswer: string := "검색 결과가 없어 답변할 수 없습니다."
  const FileNotFoundAnswer: string := "파일을 찾을 수 없습니다."

  /** `original_path` and `filename` of the chosen document; `basename` of a path that
      is not a string raises. */
  function DocPaths(doc: Value): Py<(string, Value)> {
    match Subscript(doc, "metadata")
    case Raises => Raises
    case Ok(md) =>
      if !md.Dict? then Raises
      else
        var path := DictGet(md, "file_path", Str(""));
        if !path.Str? then Raises
        else Ok((path.s, DictGet(md, "filename", Str(Basename(path.s)))))
  }

  /** `_resolve_file_path`: the stored path when it exists, otherwise what the walk
      over the data folders finds for the file name (`locate`). */
  function ResolveFilePath(originalPath: string, filename: Value, fileExists: string -> bool,
                           locate: Value -> Option<string>): Option<string> {
    if originalPath != "" && fileExists(originalPath) then Some(originalPath) else locate(filename)
  }

  /** `answer(query, category, history, target_file_path)`: the reply and the file it
      is about. `retrieved` is the retriever's result for the query and category
      (Raises when it fails); `vision` is `_handle_image_query`, which catches its
      own errors, applied to the query, the file and the history prefix. */
  function Answer(query: string, history: Option<seq<string>>, target: Option<string>,
                  fileExists: string -> bool, retrieved: Py<seq<Value>>,
                  rerank: (string, string) -> Py<string>, locate: Value -> Option<string>,
                  vision: (string, string, string) -> string): Py<(string, Option<string>)>
  {
    var historyText := HistoryText(history);
    if target.Some? && target.value != "" && fileExists(target.value) then
      Ok((vision(query, target.value, historyText), target))
    else match retrieved
      case Raises => Raises
      case Ok(docs) =>
        if docs == [] then Ok((NoResultsAnswer, None))
        else match BestDoc(query, docs, rerank)
          case Raises => Raises
          case Ok(best) =>
            match DocPaths(best)
            case Raises => Raises
            case Ok((originalPath, filename)) =>
              match ResolveFilePath(originalPath, filename, fileExists, locate)
              case None => Ok((FileNotFoundAnswer, None))
              case Some(path) =>
                if path == "" then Ok((FileNotFoundAnswer, None))
                else Ok((vision(query, path, historyText), Some(path)))
  }

  /** A locked file that exists is answered directly, without retrieval. */
  lemma AnswerLocked(query: string, history: Option<seq<string>>, path: string,
                     fileExists: string -> bool, retrieved: Py<seq<Value>>,
                     rerank: (string, string) -> Py<string>, locate: Value -> Option<string>,
                     vision: (string, string, string) -> string)
    requires path != "" && fileExists(path)
    ensures Answer(query, history, Some(path), fileExists, retrieved, rerank, locate, vision) ==
      Ok((vision(query, path, HistoryText(history)), Some(path)))
  {
  }

  /** Without a usable locked file, an empty retrieval gives the fixed message and
      no file. */
  lemma AnswerNoResults(query: string, history: Option<seq<string>>, target: Option<string>,
                        fileExists: string -> bool,
                        rerank: (string, string) -> Py<string>, locate: Value -> Option<string>,
                        vision: (string, string, string) -> string)
    requires !(target.Some? && target.value != "" && fileExists(target.value))
    ensures Answer(query, history, target, fileExists, Ok([]), rerank, locate, vision) == Ok((NoResultsAnswer, None))
  {
  }

  /** A reply comes with a file exactly when the vision step ran on that file, with
      the history prefix; the file is the locked one when that exists, and otherwise
      `_resolve_file_path` of the paths of the candidate the reranking picked. */
  lemma AnswerFile(query: string, history: Option<seq<string>>, target: Option<string>,
                   fileExists: string -> bool, retrieved: Py<seq<Value>>,
                   rerank: (string, string) -> Py<string>, locate: Value -> Option<string>,
                   vision: (string, string, string) -> string)
    requires Answer(query, history, target, fileExists, retrieved, rerank, locate, vision).Ok?
    ensures var (reply, file) := Answer(query, history, target, fileExists, retrieved, rerank, locate, vision).value;
      (file.Some? ==> file.value != "" && reply == vision(query, file.value, HistoryText(history))) &&
      (file.None? ==> reply == NoResultsAnswer || reply == FileNotFoundAnswer) &&
      (target.Some? && target.value != "" && fileExists(target.value) ==> file == target) &&
      (file.Some? && !(target.Some? && target.value != "" && fileExists(target.value)) ==>
         retrieved.Ok? && retrieved.value != [] && BestDoc(query, retrieved.value, rerank).Ok? &&
         var best := BestDoc(query, retrieved.value, rerank).value;
         best in retrieved.value && DocPaths(best).Ok? &&
         file == ResolveFilePath(DocPaths(best).value.0, DocPaths(best).value.1, fileExists, locate))
  {
    if retrieved.Ok? && retrieved.value != [] {
      BestDocIsCandidate(query, retrieved.value, rerank);
    }
  }
}
