/** `main` of scripts/ingest_vector.py: the four parallel lists built from the
    embeddings table and the batches of at most `BATCH_SIZE` entries they are
    upserted in. The table is a sequence of rows; each `collection.upsert` call is
    recorded as a batch in the returned sequence. */
module IngestVector {
  import opened Wrappers
  import opened PyValue

  /** `BATCH_SIZE` */
  const BatchSize: nat := 100

  /** One row of the parquet table; `text` is None for a missing value. */
  datatype Row = Row(docId: Value, embedding: seq<real>, text: Option<string>, labelName: Value, filePath: Value)

  /** `{"label": str(row["label"]), "file_path": str(row["file_path"])}` */
  datatype Metadata = Metadata(labelName: string, filePath: string)

  /** The four lists, entry i of each describing row i. */
  datatype Columns = Columns(ids: seq<string>, embeddings: seq<seq<real>>, documents: seq<string>, metadatas: seq<Metadata>)

  /** The arguments of one `collection.upsert` call. */
  datatype Batch = Batch(ids: seq<string>, embeddings: seq<seq<real>>, documents: seq<string>, metadatas: seq<Metadata>)

  function MetadataOf(row: Row): Metadata {
    Metadata(PyStr(row.labelName), PyStr(row.filePath))
  }

  /** `fillna("")` */
  function DocumentOf(row: Row): string {
    if row.text.Some? then row.text.value else ""
  }

  predicate Aligned(cols: Columns) {
    |cols.embeddings| == |cols.ids| && |cols.documents| == |cols.ids| && |cols.metadatas| == |cols.ids|
  }

  /** The loop over `df.iterrows()` building `metadatas`. */
  method BuildMetadatas(rows: seq<Row>) returns (metadatas: seq<Metadata>)
    ensures |metadatas| == |rows|
    ensures forall i :: 0 <= i < |rows| ==> metadatas[i] == MetadataOf(rows[i])
  {
    metadatas := [];
    for i := 0 to |rows|
      invariant |metadatas| == i
      invariant forall j :: 0 <= j < i ==> metadatas[j] == MetadataOf(rows[j])
    {
      metadatas := metadatas + [MetadataOf(rows[i])];
    }
  }

  /** `ids`, `embeddings`, `documents` and `metadatas` of the table. */
  function ColumnsOf(rows: seq<Row>): Columns {
    Columns(seq(|rows|, i requires 0 <= i < |rows| => PyStr(rows[i].docId)),
            seq(|rows|, i requires 0 <= i < |rows| => rows[i].embedding),
            seq(|rows|, i requires 0 <= i < |rows| => DocumentOf(rows[i])),
            seq(|rows|, i requires 0 <= i < |rows| => MetadataOf(rows[i])))
  }

  /** The list expressions and the metadata loop. */
  method BuildColumns(rows: seq<Row>) returns (cols: Columns)
    ensures cols == ColumnsOf(rows)
  {
    var ids := seq(|rows|, i requires 0 <= i < |rows| => PyStr(rows[i].docId));
    var embeddings := seq(|rows|, i requires 0 <= i < |rows| => rows[i].embedding);
    var documents := seq(|rows|, i requires 0 <= i < |rows| => DocumentOf(rows[i]));
    var metadatas := BuildMetadatas(rows);
    cols := Columns(ids, embeddings, documents, metadatas);
  }

  /** Python's `s[i : i + BATCH_SIZE]`, which stops at the end of `s`. */
  function Slice<T>(s: seq<T>, i: nat): (r: seq<T>)
    requires i <= |s|
    ensures |r| <= BatchSize && i + |r| <= |s| && r == s[i..i + |r|]
    ensures |r| == BatchSize || i + |r| == |s|
  {
    if i + BatchSize <= |s| then s[i..i + BatchSize] else s[i..]
  }

  /** The batch starting at `start`. */
  function BatchFrom(cols: Columns, start: nat): Batch
    requires Aligned(cols) && start <= |cols.ids|
  {
    Batch(Slice(cols.ids, start), Slice(cols.embeddings, start), Slice(cols.documents, start), Slice(cols.metadatas, start))
  }

  /** The batches for `range(start, len(df), BATCH_SIZE)`. */
  function Batches(cols: Columns, start: nat): seq<Batch>
    requires Aligned(cols)
    decreases |cols.ids| - start
  {
    if start >= |cols.ids| then [] else [BatchFrom(cols, start)] + Batches(cols, start + BatchSize)
  }

  /** The ids of the batches, in upsert order. */
  function AllIds(batches: seq<Batch>): seq<string> {
    if batches == [] then [] else batches[0].ids + AllIds(batches[1..])
  }

  /** The stepped loop: one upsert per batch, in order. */
  method Upserts(cols: Columns) returns (batches: seq<Batch>)
    requires Aligned(cols)
    ensures batches == Batches(cols, 0)
  {
    batches := [];
    var i := 0;
    while i < |cols.ids|
      invariant batches + Batches(cols, i) == Batches(cols, 0)
      decreases |cols.ids| - i
    {
      var batch := Batch(Slice(cols.ids, i), Slice(cols.embeddings, i), Slice(cols.documents, i), Slice(cols.metadatas, i));
      assert Batches(cols, i) == [batch] + Batches(cols, i + BatchSize);
      batches := batches + [batch];
      i := i + BatchSize;
    }
  }

  /** `main` after reading the table: the upserts it issues. */
  method Ingest(rows: seq<Row>) returns (batches: seq<Batch>)
    ensures batches == Batches(ColumnsOf(rows), 0)
  {
    var cols := BuildColumns(rows);
    batches := Upserts(cols);
  }

  // ---------------------------------------------------------------------------
  // Properties
  // ---------------------------------------------------------------------------

  /** Batch k starts at k * BATCH_SIZE, which is below the row count, and there are
      as many batches as `range(start, len(df), BATCH_SIZE)` has values. */
  lemma {:induction false} BatchesStarts(cols: Columns, start: nat)
    requires Aligned(cols)
    ensures var bs := Batches(cols, start);
      |bs| == (if start >= |cols.ids| then 0 else (|cols.ids| - start + BatchSize - 1) / BatchSize) &&
      forall k :: 0 <= k < |bs| ==> start + k * BatchSize < |cols.ids| && bs[k] == BatchFrom(cols, start + k * BatchSize)
    decreases |cols.ids| - start
  {
    if start < |cols.ids| {
      BatchesStarts(cols, start + BatchSize);
      var bs := Batches(cols, start);
      forall k | 0 < k < |bs|
        ensures start + k * BatchSize < |cols.ids| && bs[k] == BatchFrom(cols, start + k * BatchSize)
      {
        assert bs[k] == Batches(cols, start + BatchSize)[k - 1];
        assert start + BatchSize + (k - 1) * BatchSize == start + k * BatchSize;
      }
    }
  }

  /** A batch holds the entries from its start on, at least one and at most
      `BATCH_SIZE`; its four lists have the same length, so entry t of each
      describes the same row. */
  lemma BatchShape(cols: Columns, s: nat)
    requires Aligned(cols) && s < |cols.ids|
    ensures var b := BatchFrom(cols, s);
      0 < |b.ids| <= BatchSize && b.ids == cols.ids[s..s + |b.ids|] &&
      b.embeddings == cols.embeddings[s..s + |b.ids|] && b.documents == cols.documents[s..s + |b.ids|] &&
      b.metadatas == cols.metadatas[s..s + |b.ids|]
  {
  }

  /** Concatenating the batches' ids in order gives back every id from `start` on,
      each exactly once. */
  lemma {:induction false} BatchesCoverIds(cols: Columns, start: nat)
    requires Aligned(cols) && start <= |cols.ids|
    ensures AllIds(Batches(cols, start)) == cols.ids[start..]
    decreases |cols.ids| - start
  {
    if start < |cols.ids| {
      var b := BatchFrom(cols, start);
      assert Batches(cols, start)[1..] == Batches(cols, start + BatchSize);
      if start + BatchSize <= |cols.ids| {
        BatchesCoverIds(cols, start + BatchSize);
        assert cols.ids[start..] == cols.ids[start..start + BatchSize] + cols.ids[start + BatchSize..];
      } else {
        assert Batches(cols, start + BatchSize) == [];
      }
    }
  }

  /** The ingested table: the ids upserted, batch after batch, are the table's
      doc ids in row order, each exactly once. */
  lemma IngestCoversTable(rows: seq<Row>)
    ensures var ids := AllIds(Batches(ColumnsOf(rows), 0));
      |ids| == |rows| && forall i :: 0 <= i < |rows| ==> ids[i] == PyStr(rows[i].docId)
  {
    BatchesCoverIds(ColumnsOf(rows), 0);
  }

  /** A missing text becomes the empty document, a present one is kept. */
  lemma DocumentDefault(row: Row)
    ensures row.text.None? <==> DocumentOf(row) == "" && row.text != Some("")
    ensures row.text.Some? ==> DocumentOf(row) == row.text.value
  {
  }
}
