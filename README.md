# A Dafny model of the OCR, layout-classification and RAG core of Multimodal-rag-project

The repository turns scanned documents into text lines and classifies them with
a layout model (LayoutLMv3). It ingests their embeddings into a vector store and
answers chat questions about them through a retrieval-augmented pipeline.

This project models the parts of that code that decide what data flows where:

- **OCR parsing.** The engine's raw output becomes `OCRLine` records, in either the parallel-array format or the legacy list format.
- **Page assembly.** `OCRResult` is assembled, and `full_text` is derived from its lines.
- **Box normalisation.** The two functions that put pixel boxes on the 0..1000 grid.
- **Token lists.** Three front ends turn OCR JSON or an `OCRResult` into the `words` / `boxes` lists the layout model reads: the OCR processor, the training dataset and the classifier. The dataset also looks up the label id.
- **Classifier results.** The classifier's label lookup and its error results.
- **Intent router.** It cleans the LLM's JSON reply and decides the search filter.
- **Text RAG.** It builds the context from retrieved documents.
- **Multimodal RAG.** It builds the prefix from conversation history, lets the LLM rerank the retrieved candidates, and branches between a locked file and a search.
- **Chat sessions.** The session store behind the chat endpoint (history, locked file, reset).
- **Two batch scripts.** Batched ingestion of the embeddings table, and class-balanced selection of downloaded samples.

The OCR engine, the image library, the file system, the vector store, the
retriever and the LLM are all outside the model. Whatever they deliver comes in
as parameters:

- an image size;
- a parsed JSON value (`PyValue.Value`);
- a reply that may be `Raises`;
- a function standing for a call.

`Py<T>` (`Ok(value)` or `Raises`) records where the Python code raises.

Imperative code becomes methods with loops, each proved equal to a specification
function (`ensures r == Spec(...)`); the properties are proved as lemmas about
those functions. Where the Python mutates an object (`OCRResult.full_text`, the
`session_store` dict), the model is a class whose methods state the new state.

The OCR stage has no confidence gate, no clamping to the image bounds and no
reading-order sort (ocr_service/aggregator.py:13-35 and ocr_service/parser.py:17-87),
and the model follows it: lines keep their engine order, and no confidence is filtered.

## Model

| member | source | states |
|---|---|---|
| Parser.Coords | ocr_service/parser.py:36-37 | `[p[k] for p in points]` exists exactly when every point yields a number at `k`; then entry j is point j's coordinate |
| Parser.MinOf | ocr_service/parser.py:41 | `min(xs)` is an element of `xs` and below every element |
| Parser.MaxOf | ocr_service/parser.py:41 | `max(xs)` is an element of `xs` and above every element |
| Parser.CornerBox | ocr_service/parser.py:41 | the box has four entries with `x_min <= x_max` and `y_min <= y_max` after `int()` truncation |
| Parser.PolygonToBBox | ocr_service/parser.py:36-41 | every box a polygon yields is ordered and has four entries |
| Parser.ParallelLoop | ocr_service/parser.py:25-45 | the loop over `range(min_len)` equals the specification: it raises at the first unparsable entry, otherwise it gives one line per index |
| Parser.FindWorkList | ocr_service/parser.py:49-56 | the search stops at the first alias key holding a list, else leaves the dict itself |
| Parser.LegacyLoop | ocr_service/parser.py:61-87 | the loop equals the filter of well-formed items: malformed items are skipped, the rest are kept in order |
| Parser.ParseRawData | ocr_service/parser.py:9-87 | the method equals `Parse`, branch by branch |
| Parser.ParallelCount | ocr_service/parser.py:17-45 | a dict with `rec_texts` gives `min(len(rec_texts), len(rec_polys))` lines, line i from entry i of each list |
| Parser.ParallelNeedsLengths | ocr_service/parser.py:23 | `rec_texts` or `rec_polys` without a length makes the parse raise |
| Parser.ParallelIgnoresOtherKeys | ocr_service/parser.py:17-20 | two dicts agreeing on the three parallel keys parse alike, so the legacy alias keys are never read |
| Parser.ParallelScore | ocr_service/parser.py:28 | an index past the end of `rec_scores` gets 0.99, one inside it gets `float(scores[i])` |
| Parser.ParallelEmptyPolygonAborts | ocr_service/parser.py:25-43 | one empty polygon makes the whole parallel parse raise: there is no per-item guard |
| Parser.WorkListOfDict | ocr_service/parser.py:49-56 | the work list of a dict is the first of `dt_polys`, `ocr_result`, `res` holding a list, else the dict |
| Parser.LegacyNeverRaises | ocr_service/parser.py:58-87 | anything other than a dict with `rec_texts` parses without raising; a non-list work list gives `[]` |
| Parser.LegacySkipsMalformed | ocr_service/parser.py:61-85 | a malformed item between two lists drops out and later items are still parsed |
| Parser.LegacyAllWellFormed | ocr_service/parser.py:61-87 | a list of well-formed items gives exactly one line per item |
| Parser.LegacyShape | ocr_service/parser.py:64 | an item that is not a 2-element list or tuple is skipped |
| Parser.LegacyContent | ocr_service/parser.py:69-72 | sequence content gives `content[0]`, `content[1]`; bare content gives `str(content)` with 0.99 |
| Parser.EmptyInputs | ocr_service/parser.py:58-61 | an empty engine result, or one that is not a list, gives no lines |
| Parser.PolygonBBoxExtremes | ocr_service/parser.py:36-41 | the box is the truncated min and max of the points' coordinates: every point lies inside it, and each of the four edges is attained by some point |
| Parser.ParsedBoxesOrdered | ocr_service/parser.py:39-43 | every emitted box, in either branch, has four entries and is ordered |
| Parser.RectangleBBox | ocr_service/parser.py:36-41 | a rectangle given corner by corner gives back its two corners as the box |
| Schema.OCRResult.constructor | schemas/data_models.py:19-23 | `page_id` defaults to 1 and `full_text` to "" |
| Schema.OCRResult.UpdateFullText | schemas/data_models.py:25-26 | `full_text` becomes the newline join of the line texts, and no other field changes |
| Schema.UpdateFullTextTwice | schemas/data_models.py:25-26 | updating twice is updating once |
| Schema.FullTextLength | schemas/data_models.py:26 | `full_text` is the texts plus one newline between neighbours |
| Schema.FullTextSplitsBack | schemas/data_models.py:26 | splitting `full_text` at newlines gives back the line texts when none holds a newline |
| Schema.FullTextSnoc | schemas/data_models.py:26 | one more line adds a newline and its text |
| Aggregator.FileNameIsLastComponent | ocr_service/aggregator.py:27 | the file name is the part of the path after the last `/`, and holds no `/` |
| Aggregator.FileNameOfBareName | ocr_service/aggregator.py:27 | a path without `/` is its own file name |
| Aggregator.Run | ocr_service/aggregator.py:13-35 | raises exactly when the parse raises; otherwise a new result with the parsed lines, the metadata, page 1 and the derived `full_text` |
| Aggregator.RunOnEmptyEngineOutput | ocr_service/aggregator.py:22-34 | no engine lines give no lines and an empty `full_text` |
| Geometry.ScaleCoordInRange | src/utils/geometry.py:7-10 | a coordinate inside the image lands in 0..1000 |
| Geometry.ScaleCoordEdges | src/utils/geometry.py:7-10 | the image's edges land on 0 and 1000 |
| Geometry.ScaleCoordMonotone | src/utils/geometry.py:7-10 | scaling preserves order |
| Geometry.ScaleCoordTruncates | src/utils/geometry.py:7 | `int()` truncates toward zero: -1/3 of the width gives -333 |
| Geometry.ScaleCoordNotClamped | src/utils/geometry.py:6-11 | nothing is clamped: twice the image size gives 2000 |
| Geometry.NormalizeBBoxOrdered | src/utils/geometry.py:6-11 | an ordered box stays ordered |
| Geometry.NormalizeBBoxInRange | src/utils/geometry.py:6-11 | a box inside the image lands on the grid |
| BoxUtils.Clamp | src/utils.py:76-79 | `max(0, min(1000, v))` lies in 0..1000, is `v` inside, and is 0 or 1000 outside |
| BoxUtils.NormalizeBox | src/utils.py:64-82 | four entries on the grid, ordered |
| BoxUtils.NormalizeBoxCoordinates | src/utils.py:76-82 | the x outputs are the two clamped x inputs and the y outputs the two clamped y inputs |
| BoxUtils.NormalizeBoxSwapInvariant | src/utils.py:82 | swapping the two x or the two y inputs changes nothing |
| BoxUtils.ScaleAgrees | src/utils.py:70-73 | `int(c / w * 1000)` equals `int(1000 * (c / w))` of `normalize_bbox` |
| BoxUtils.NormalizeBoxPlain | src/utils.py:64-82 | for an ordered box inside the image, `normalize_box` equals `normalize_bbox` |
| LayoutInput.FallbackKeeps | src/core/classifier.py:80-82 | after the fallback there is a token, and alignment, grid and order are kept |
| OcrProcessor.DictListValuesAppend | src/core/ocr_processor.py:23-28 | the items of a dict are those of its entries, in key order |
| OcrProcessor.DictListValuesEntry | src/core/ocr_processor.py:26-28 | a list-valued entry contributes its whole list, any other value nothing |
| OcrProcessor.CandidateKept | src/core/ocr_processor.py:33-46 | an item is kept exactly when it is a dict with a non-blank string text and a list box of four; the text is kept unstripped |
| OcrProcessor.KeyFallbacks | src/core/ocr_processor.py:39-40 | `words` is read only when `text` is falsy, and `bbox` only when `box` is falsy |
| OcrProcessor.GatherItems | src/core/ocr_processor.py:18-28 | the loop gives the items of the specification: a list itself, a dict's list values chained |
| OcrProcessor.CollectTokens | src/core/ocr_processor.py:30-49 | the filtering loop equals the specification `Process` |
| OcrProcessor.ProcessOcrData | src/core/ocr_processor.py:5-55 | the whole function equals `Process` on the gathered items |
| OcrProcessor.ProcessIsFilter | src/core/ocr_processor.py:33-49 | the loop succeeds exactly when every kept box holds numbers and the image has a size if anything is kept; token k is the k-th kept item with its box scaled |
| OcrProcessor.ProcessShape | src/core/ocr_processor.py:30-55 | aligned lists, at most one token per item, only non-blank words, 4-entry boxes |
| OcrProcessor.NoFallback | src/core/ocr_processor.py:51-55 | a page with nothing kept gives two empty lists: no fallback token |
| OcrProcessor.ScalarJsonHasNoItems | src/core/ocr_processor.py:20-28 | JSON that is neither a list nor a dict gives no items |
| Dataset.LineKept | src/dataset.py:32-42 | a line is kept exactly when it is a dict with a non-blank string text and a four-number list box; it stores the stripped text and `normalize_box` of the box |
| Dataset.LineSkipped | src/dataset.py:36-38 | a line is skipped exactly when its stripped text is empty or its box length is not 4 |
| Dataset.LineBox | src/dataset.py:33-42 | each stored word is stripped and non-empty; each stored box is on the grid and ordered |
| Dataset.BuildInput | src/dataset.py:28-48 | the loop and the fallback equal the specification `Encode` |
| Dataset.CollectAppend | src/dataset.py:32-42 | the loop over concatenated lines is the two loops concatenated; it raises exactly when one of them does |
| Dataset.CollectShape | src/dataset.py:32-42 | aligned lists, no longer than the lines, stripped words, grid and ordered boxes |
| Dataset.AllSkippedIsEmptyPage | src/dataset.py:45-48 | a page whose every line is skipped becomes the one-token empty page |
| Dataset.MissingLinesKey | src/dataset.py:32 | without `lines` the page is the empty page |
| Dataset.EncodeShape | src/dataset.py:28-48 | whatever succeeds has at least one token, aligned, with grid and ordered boxes |
| Dataset.LabelId | src/dataset.py:65 | the label id exists exactly when `item["label"]` is a label the mapping knows, and is its id |
| Dataset.GetItem | src/dataset.py:17-67 | succeeds exactly when the lists and the label both do, with those values |
| Classifier.ClampAll | src/core/classifier.py:76 | every entry pulled into 0..1000 on its own, unchanged inside |
| Classifier.Preprocess | src/core/classifier.py:68-77 | the loop equals the specification `Encode` |
| Classifier.EncodeOnePerLine | src/core/classifier.py:71-77 | no filtering: the loop succeeds exactly when every line's box can be computed, then token k is line k's text and clamped box |
| Classifier.LineBoxDefined | src/core/classifier.py:73 | a box is computed exactly when the line has four coordinates and the image has a size |
| Classifier.EncodeInGrid | src/core/classifier.py:75-77 | every box handed to the model is on the grid |
| Classifier.LineBoxInsideImage | src/core/classifier.py:73-76 | for a box inside the image the clamp does nothing |
| Classifier.Predict | src/core/classifier.py:55-107 | the method equals the specification `Classify` |
| Classifier.ErrorIsNotAClass | src/core/classifier.py:22-27 | "error" is not one of the sixteen classes |
| Classifier.ClassifyLabel | src/core/classifier.py:61-107 | the label is one of the classes or the result is the error result |
| Classifier.ClassifyErrors | src/core/classifier.py:61-107 | an unloaded model, an unreadable image and a failing inference give the error result |
| Classifier.ClassifyUsesEncoding | src/core/classifier.py:79-103 | a real label is `classes[idx]` of the model's answer on the encoded lines, or on the empty page |
| Router.CleanRemovesFences | src/core/router.py:12-15 | the cleaned reply holds no "```" and no "```json" and is stripped |
| Router.CleanIdempotent | src/core/router.py:12-15 | cleaning twice is cleaning once |
| Router.CleanPlainReply | src/core/router.py:12-15 | a reply without backticks is only stripped |
| Router.RemoveFenceLeavesNone | src/core/router.py:14 | after removing "```" no three backticks in a row are left |
| Router.RouteKeepsQuery | src/core/router.py:77-87 | the result carries the input query |
| Router.RouteFilterRule | src/core/router.py:66-83 | a filter is set exactly when the label is not "unknown" and the confidence is a number of at least 0.5; it is then the label, with the detected reason |
| Router.RouteDecidesParsed | src/core/router.py:62-64 | a parsable reply is decided on its parsed value |
| Router.DecideDefaults | src/core/router.py:66-67 | a missing label means "unknown" and a missing confidence 0.0; either leaves the filter off |
| Router.RouteErrors | src/core/router.py:61-87 | no reply, invalid JSON, a non-object and a non-numeric confidence all give the "System Error" result |
| TextRag.BuildContext | src/rag/text_rag.py:19-25 | the loop equals the specification `Context` |
| TextRag.AnswerQuery | src/rag/text_rag.py:9-35 | the method equals the specification `Answer` |
| TextRag.AnswerEmpty | src/rag/text_rag.py:15-16 | with no documents the answer is the fixed message, whatever the LLM does |
| TextRag.AnswerUsesContext | src/rag/text_rag.py:25-35 | otherwise the LLM answers on the joined context |
| TextRag.ContextParts | src/rag/text_rag.py:19-25 | the context exists exactly when every document and its metadata are dicts; it is the parts numbered from 1, in order, joined by a blank line |
| TextRag.DocFieldsDefaults | src/rag/text_rag.py:21-22 | a missing `content` gives "", a missing `metadata` or `source` gives "Unknown" |
| TextRag.ContextLength | src/rag/text_rag.py:25 | the context is the parts plus two characters between neighbours |
| MultimodalRag.HistoryText | src/rag/multimodal_rag.py:23-25 | the prefix is empty exactly when the history is missing or empty |
| MultimodalRag.HistoryTextReadBack | src/rag/multimodal_rag.py:25 | the entries can be read back from the prefix |
| MultimodalRag.Preview | src/rag/multimodal_rag.py:71 | at most 800 characters, newlines turned into spaces, everything else kept |
| MultimodalRag.BuildCandidatesInfo | src/rag/multimodal_rag.py:63-78 | the loop equals the specification `CandidatesInfo` |
| MultimodalRag.CandidatesInfoShape | src/rag/multimodal_rag.py:64-78 | the list exists exactly when every candidate has a name and a text; one block per candidate, numbered from 1 |
| MultimodalRag.RunStart | src/rag/multimodal_rag.py:99 | the search starts at the first digit |
| MultimodalRag.RunEnd | src/rag/multimodal_rag.py:99 | the match is the longest run of digits from there |
| MultimodalRag.FirstNumber | src/rag/multimodal_rag.py:99-102 | no number exactly when the reply has no digit |
| MultimodalRag.FirstNumberFinds | src/rag/multimodal_rag.py:99-102 | a numeral after digit-free text is the number found |
| MultimodalRag.SelectBestDoc | src/rag/multimodal_rag.py:58-111 | the method equals the specification `BestDoc` |
| MultimodalRag.PickFromReply | src/rag/multimodal_rag.py:98-107 | the candidate picked equals `Choose` on the reply |
| MultimodalRag.BestDocIsCandidate | src/rag/multimodal_rag.py:101-111 | with candidates the choice never fails and is one of them; with none it raises |
| MultimodalRag.BestDocByNumber | src/rag/multimodal_rag.py:99-111 | first number k in 1..n picks candidate k; every other reply or failure picks the first |
| MultimodalRag.BestDocOfNumeral | src/rag/multimodal_rag.py:98-104 | a reply that is just "k" picks candidate k |
| MultimodalRag.AnswerLocked | src/rag/multimodal_rag.py:28-55 | an existing locked file is answered directly, without retrieval |
| MultimodalRag.AnswerNoResults | src/rag/multimodal_rag.py:34-37 | an empty retrieval gives the fixed message and no file |
| MultimodalRag.AnswerFile | src/rag/multimodal_rag.py:20-55 | a reply has a file exactly when vision ran on it; otherwise it is one of the two fixed messages; a usable locked file is the file; otherwise the file is `_resolve_file_path` of the paths of the retrieved candidate that `BestDoc` picked |
| Chat.Last | src/api/routers/chat.py:33 | `history[-6:]` is the last six entries, or all of them when there are fewer |
| Chat.SessionStore.constructor | src/api/routers/chat.py:12 | the store starts empty |
| Chat.SessionStore.ChatEndpoint | src/api/routers/chat.py:15-53 | the new store and the response are those of `Handle`, and every session stays well formed |
| Chat.SessionStore.ChatEndpointAsWritten | src/api/routers/chat.py:20-53 | as written, the request only creates its session and then takes the error path |
| Chat.SessionStore.ResetSession | src/api/routers/chat.py:55-61 | the session is removed if present, and the message says which case it was |
| Chat.AfterAnswerWellFormed | src/api/routers/chat.py:37-43 | an answer keeps the history even-length and the locked file non-empty |
| Chat.HandleKeepsWellFormed | src/api/routers/chat.py:19-49 | every request keeps every session well formed |
| Chat.HandleTouchesOneSession | src/api/routers/chat.py:19-43 | a request creates or updates only its own session |
| Chat.HandleFailureKeepsSession | src/api/routers/chat.py:25-53 | a failing RAG call leaves the session as it was, or empty if it is new |
| Chat.HandleSuccess | src/api/routers/chat.py:30-49 | "User: q" then "AI: a" are appended; at most six entries are handed on; "Locked" exactly when a file is locked |
| Chat.LockOnce | src/api/routers/chat.py:38-39 | a locked file never changes; one is locked only when none was and the RAG used a non-empty path |
| Chat.HistoryWindow | src/api/routers/chat.py:33 | the window is the tail of the history, at most six entries |
| Chat.AsWrittenNeverAnswers | src/api/routers/chat.py:30-35 | as written, no request is answered and no file is ever locked |
| Chat.IntendedLocksFirstFile | src/api/routers/chat.py:30-47 | intended: a fresh session's first answer with a file locks it and reports "Locked" |
| Chat.ResetOnlyThatSession | src/api/routers/chat.py:58-61 | reset deletes the session exactly when it exists and touches no other; "not found" exactly when absent |
| Chat.ResetMessageNamesSession | src/api/routers/chat.py:60 | the message as written is the same for every session; the intended one starts with the session id |
| IngestVector.BuildMetadatas | scripts/ingest_vector.py:54-59 | one metadata entry per row: `str(label)` and `str(file_path)` |
| IngestVector.BuildColumns | scripts/ingest_vector.py:50-59 | the lists built equal `ColumnsOf` |
| IngestVector.Slice | scripts/ingest_vector.py:64-67 | `s[i:i+100]` is the run from i, at most 100 entries, stopping at the end |
| IngestVector.Upserts | scripts/ingest_vector.py:63-74 | the stepped loop issues exactly the batches of `Batches` |
| IngestVector.Ingest | scripts/ingest_vector.py:50-74 | the upserts are the batches of the table's columns |
| IngestVector.BatchesStarts | scripts/ingest_vector.py:15-63 | batch k starts at 100k, below the row count, and there are ceil(n/100) batches |
| IngestVector.BatchShape | scripts/ingest_vector.py:64-67 | each batch holds 1 to 100 entries from its start, and its four lists are cut at the same bounds |
| IngestVector.BatchesCoverIds | scripts/ingest_vector.py:63-67 | the batches' ids concatenated are all the ids from the start on |
| IngestVector.IngestCoversTable | scripts/ingest_vector.py:50-67 | every doc id is upserted exactly once, in row order |
| IngestVector.DocumentDefault | scripts/ingest_vector.py:52 | a missing text becomes "", a present one is kept |
| DownloadData.DownloadLoop | scripts/download_data.py:27-93 | the loop, with its `break`, `continue` and skipped samples, equals the specification `Download` |
| DownloadData.StepGood | scripts/download_data.py:41-93 | every iteration keeps the invariant: total = #entries = per-class counts, each at most the per-class target, total at most 1000, ids in order |
| DownloadData.RunGood | scripts/download_data.py:41-93 | the invariant holds at the end, however the loop ends |
| DownloadData.DownloadBalanced | scripts/download_data.py:26-93 | no class over `1000 // n + 1`, at most 1000 saved, as many entries as the total, ids "doc_0000", … in order and pairwise distinct |
| DownloadData.SkippedSampleKeepsState | scripts/download_data.py:50-93 | a sample from a full class, or whose image raises, changes nothing |
| DownloadData.SavedSample | scripts/download_data.py:71-88 | a saved sample adds one entry for its own class, its counter and the total each by one |
| DownloadData.StopsAtTarget | scripts/download_data.py:43-44 | once 1000 are saved the loop stops |
| DownloadData.NoClassesRaises | scripts/download_data.py:27-28 | no class names: the division raises before the loop |
| Strings.Pad4Injective | scripts/download_data.py:71-79 | `f"{n:04d}"` is injective, so the ids are unique |
| PyValue.TruncMonotone | ocr_service/parser.py:41 | `int()` truncation preserves order, so `int(min xs) <= int(max xs)` |

## Findings

| source | as written | input that shows it | evidently intended | confidence | as-written member | corrected member |
|---|---|---|---|---|---|---|
| src/api/routers/chat.py:30-35 | `rag_system.answer(..., fixed_file_path=...)`, but `MultimodalRAG.answer` (src/rag/multimodal_rag.py:20-21) has no such parameter | any request: the call raises `TypeError`, so the endpoint answers 500 and never records history or locks a file | pass the locked file as `target_file_path` | high, not executed | Chat.SessionStore.ChatEndpointAsWritten, Chat.AsWrittenNeverAnswers | Chat.SessionStore.ChatEndpoint, Chat.IntendedLocksFirstFile |
| src/api/routers/chat.py:60 | `"{session_id} 세션이 초기화되었습니다."` lacks the `f` prefix | resetting session "abc" returns the literal text `{session_id} 세션이 초기화되었습니다.` | an f-string naming the session | high, not executed | Chat.ResetMessageAsWritten, Chat.ResetMessageNamesSession | Chat.ResetMessage, Chat.SessionStore.ResetSession |

The rest of the model uses the corrected members. The as-written chat request is
kept beside its correction, so the model does not claim that a file ever gets
locked in the code as it stands.

## Left out

- **Out of scope.** These are I/O or foreign calls, and come in as parameters or are dropped:
  - the OCR engine and OCR HTTP service (ocr_service/engine.py, ocr_service/api.py);
  - `Image.open` and `json.load`;
  - the `os.walk` file search;
  - the vector store, the retriever and the Gemini LLM calls;
  - the layout model's processor, forward pass and softmax;
  - the HuggingFace stream;
  - image saving and the metadata JSON file;
  - in scripts/ingest_vector.py, the collection reset and creation (lines 28-41), the `FileNotFoundError` for a missing parquet file (lines 44-45) and the parquet read: the model starts from the table's rows.
- **Floats.** Coordinates and confidences are exact reals, so float rounding is abstracted. `int()` is truncation toward zero.
- Classifier.Predict: `round(conf, 4)` is not modelled; the confidence is passed through unrounded.
- **`str()`.** `str()` of numbers, `None` and containers is a placeholder rendering (`PyStr`); `str()` of a string is exact.
- A coordinate or score given as a digit string is treated as raising, although Python's `int()` / `float()` would parse it.
- **Digits.** `re.search(r"\d+", ...)` is limited to ASCII digits; Python also matches other Unicode decimal digits.
- **Zero image size.** A zero width or height raises wherever the source divides by it.
- **Prompt templates.** The prompts (src/rag/prompts.py is not part of this model) are abstracted. Each LLM call is a function of the values the prompt is built from.
- **`category=`.** This argument of `MultimodalRAG.answer` only reaches the retriever, which is a parameter here.
- DownloadData.DownloadBalanced: `total_saved == sum(counters)` is stated per class instead: each counter equals the number of metadata entries of its class, and the total equals the number of entries.
- **Numpy arrays.** `Value` has no numpy array, only lists and tuples. An engine result holding a numpy array is therefore represented as a list, although the source's `isinstance(..., list)` and `isinstance(item, (list, tuple))` tests (ocr_service/parser.py:54, 58 and 64) reject one: for the source, a numpy `dt_polys` is not chosen as the work list, and a numpy item is skipped.
- **Duplicate dict keys.** A `Dict` value may list a key twice, which `json.load` never produces; lookups take the first entry.
- **Negative `label_id`.** A negative label id (Python would index from the end) is not modelled: label ids are naturals.
- **`os.path.join`.** Joining with an absolute class name is not modelled: the image path is the plain concatenation.
- **Not modelled at all:**
  - the Streamlit UI;
  - the training, evaluation and visualisation scripts;
  - the other ingest scripts;
  - `get_data_pairs`;
  - the copies of `normalize_bbox` in src/inference.py and src/core/embedding_backup.py. They are identical to `Geometry.NormalizeBBox`.
- **Pydantic.** Its validation of `ChatResponse` and of the OCR records is not modelled.
