/** `TextRAG.answer` of src/rag/text_rag.py: the context string built from the
    retrieved documents and the empty-retrieval answer. The LLM call is a parameter
    applied to the context and the query; the prompt template they are formatted
    into (src/rag/prompts.py) is not part of this model. */
module TextRag {
  import opened Wrappers
  import opened PyValue
  import Strings
  import opened Loops

  const NoResultsAnswer: string := "검색 결과가 없어 답변할 수 없습니다."

  /** `f"문서 {i+1} (파일명: {source}):\n{content}"` */
  function Part(i: nat, source: string, content: string): string {
    "문서 " + Strings.NatToString(i + 1) + " (파일명: " + source + "):\n" + content
  }

  /** `doc.get('content', '')` and `doc.get('metadata', {}).get('source', 'Unknown')`,
      rendered with `str`; None where `get` is called on something that is not a
      dict. */
  function DocFields(doc: Value): Option<(string, string)> {
    if !doc.Dict? then None
    else
      var content := DictGet(doc, "content", Str(""));
      var metadata := DictGet(doc, "metadata", Dict([]));
      if !metadata.Dict? then None
      else Some((PyStr(DictGet(metadata, "source", Str("Unknown"))), PyStr(content)))
  }

  /** The part of document `i`, or None where building it raises. */
  function PartAt(docs: seq<Value>, i: nat): Option<string> {
    if i >= |docs| then None
    else match DocFields(docs[i])
      case None => None
      case Some((source, content)) => Some(Part(i, source, content))
  }

  /** `context_str`, or Raises where a document is malformed. */
  function Context(docs: seq<Value>): Py<string> {
    match TryMap(PartAt, docs, |docs|)
    case Raises => Raises
    case Ok(parts) => Ok(Strings.Join("\n\n", parts))
  }

  /** The loop over `enumerate(retrieved_docs)` and the join after it. */
  method BuildContext(docs: seq<Value>) returns (r: Py<string>)
    ensures r == Context(docs)
  {
    var parts: seq<string> := [];
    for i := 0 to |docs|
      invariant TryMap(PartAt, docs, i) == Ok(parts)
    {
      var fields := DocFields(docs[i]);
      if fields.None? {
        TryMapAborts(PartAt, docs, |docs|, i);
        return Raises;
      }
      var (source, content) := fields.value;
      parts := parts + [Part(i, source, content)];
    }
    return Ok(Strings.Join("\n\n", parts));
  }

  /** `answer(query, retrieved_docs)`: `generate` is the LLM's reply to the prompt
      built from the context and the query. */
  function Answer(query: string, docs: seq<Value>, generate: (string, string) -> Py<string>): Py<string> {
    if docs == [] then Ok(NoResultsAnswer)
    else match Context(docs)
      case Raises => Raises
      case Ok(context) => generate(context, query)
  }

  /** The answer method: the fallback first, then the context, then the LLM. */
  method AnswerQuery(query: string, docs: seq<Value>, generate: (string, string) -> Py<string>) returns (r: Py<string>)
    ensures r == Answer(query, docs, generate)
  {
    if |docs| == 0 {
      return Ok(NoResultsAnswer);
    }
    var context := BuildContext(docs);
    if context.Raises? {
      return Raises;
    }
    r := generate(context.value, query);
  }

  // ---------------------------------------------------------------------------
  // Properties
  // ---------------------------------------------------------------------------

  /** No documents: the fixed message, whatever the LLM would say. */
  lemma AnswerEmpty(query: string, g1: (string, string) -> Py<string>, g2: (string, string) -> Py<string>)
    ensures Answer(query, [], g1) == Ok(NoResultsAnswer)
    ensures Answer(query, [], g1) == Answer(query, [], g2)
  {
  }

  /** Otherwise the LLM answers on the joined context. */
  lemma AnswerUsesContext(query: string, docs: seq<Value>, generate: (string, string) -> Py<string>)
    requires docs != [] && Context(docs).Ok?
    ensures Answer(query, docs, generate) == generate(Context(docs).value, query)
  {
  }

  /** The context is built exactly when every document and its metadata are dicts,
      and then it is the parts, in document order and numbered from 1, joined by a
      blank line. */
  lemma ContextParts(docs: seq<Value>)
    ensures Context(docs).Ok? <==> forall i :: 0 <= i < |docs| ==> DocFields(docs[i]).Some?
    ensures Context(docs).Ok? ==>
      var parts := TryMap(PartAt, docs, |docs|).value;
      |parts| == |docs| && Context(docs).value == Strings.Join("\n\n", parts) &&
      forall i :: 0 <= i < |docs| ==>
        parts[i] == Part(i, DocFields(docs[i]).value.0, DocFields(docs[i]).value.1)
  {
    TryMapShape(PartAt, docs, |docs|);
    forall i | 0 <= i < |docs| ensures PartAt(docs, i).Some? <==> DocFields(docs[i]).Some? {
    }
  }

  /** A document without `content` contributes an empty text, and one without
      `metadata` or without `source` is attributed to "Unknown". */
  lemma DocFieldsDefaults(doc: Value)
    requires doc.Dict?
    ensures !HasKey(doc, "content") && DocFields(doc).Some? ==> DocFields(doc).value.1 == ""
    ensures !HasKey(doc, "metadata") ==> DocFields(doc) == Some(("Unknown", PyStr(DictGet(doc, "content", Str("")))))
    ensures HasKey(doc, "metadata") && DictGet(doc, "metadata", Dict([])).Dict? &&
            !HasKey(DictGet(doc, "metadata", Dict([])), "source") ==>
            DocFields(doc).Some? && DocFields(doc).value.0 == "Unknown"
  {
  }

  /** The context's length is that of the parts plus two characters between
      neighbours. */
  lemma ContextLength(docs: seq<Value>)
    requires Context(docs).Ok?
    ensures var parts := TryMap(PartAt, docs, |docs|).value;
      |Context(docs).value| == Strings.TotalLength(parts) + (if |parts| == 0 then 0 else 2 * (|parts| - 1))
  {
    Strings.JoinLength("\n\n", TryMap(PartAt, docs, |docs|).value);
  }
}
