/**
 * The collaborators of a struct column writer: its present stream, and the column writers
 * of its fields reduced to the calls they receive and the outputs they report.
 */
module OrcStreams {
  import opened Errors
  import opened OrcMetadata
  import opened OrcBlocks

  /**
   * A present (null bitmap) stream. The model keeps the booleans written and the
   * checkpoints recorded since the last reset; the byte-level run-length and compression
   * encoding is not modelled: its checkpoints come from `encoder`, and its byte counts are
   * opaque state. Following ORC's
   * convention of omitting the present stream of a column without nulls, the encoded
   * stream exists only once a `false` (a null) has been written.
   */
  class PresentOutputStream {
    const compressed: bool
    const bufferSize: int
    const encoder: ByteEncoder
    var values: seq<bool>
    var checkpoints: seq<BooleanStreamCheckpoint>
    var closed: bool
    var bufferedBytes: nat
    var retainedBytes: nat

    predicate Pristine()
      reads this
    {
      values == [] && checkpoints == [] && !closed
    }

    constructor (compression: CompressionKind, bufferSize: int, encoder: ByteEncoder)
      ensures compressed == (compression != NONE) && this.bufferSize == bufferSize
      ensures this.encoder == encoder
      ensures Pristine()
    {
      compressed := compression != NONE;
      this.bufferSize := bufferSize;
      this.encoder := encoder;
      values, checkpoints, closed := [], [], false;
      bufferedBytes, retainedBytes := 0, 0;
    }

    /** Whether the encoded stream exists: some value written since the last reset was a null. */
    predicate Materialized()
      reads this
    {
      false in values
    }

    method RecordCheckpoint()
      modifies this
      ensures checkpoints == old(checkpoints) + [CheckpointAt(values, encoder)]
      ensures values == old(values) && closed == old(closed)
    {
      checkpoints := checkpoints + [CheckpointAt(values, encoder)];
    }

    method WriteBoolean(value: bool)
      modifies this
      ensures values == old(values) + [value]
      ensures checkpoints == old(checkpoints) && closed == old(closed)
    {
      values := values + [value];
    }

    method Close()
      modifies this
      ensures closed
      ensures values == old(values) && checkpoints == old(checkpoints)
    {
      closed := true;
    }

    method Reset()
      modifies this
      ensures Pristine()
    {
      values, checkpoints, closed := [], [], false;
    }

    /** The checkpoints, when the encoded stream exists. */
    function GetCheckpoints(): (r: Option<seq<BooleanStreamCheckpoint>>)
      reads this
      ensures r.Some? <==> Materialized()
      ensures r.Some? ==> r.value == checkpoints
    {
      if Materialized() then Some(checkpoints) else None
    }

    /** The finalized PRESENT stream of column `columnId`, when the encoded stream exists. */
    function GetStreamDataOutput(columnId: ColumnId): (r: Option<StreamDataOutput>)
      reads this
      ensures r.Some? <==> Materialized()
      ensures r.Some? ==> r.value == StreamDataOutput(Stream(columnId, PRESENT), BooleanBits(values))
    {
      if Materialized() then Some(StreamDataOutput(Stream(columnId, PRESENT), BooleanBits(values))) else None
    }
  }

  /** A call a field writer receives from its parent. */
  datatype WriterCall =
    | BeginRowGroupCall
    | WriteBlockCall(block: seq<FieldValue>)
    | FinishRowGroupCall
    | CloseCall
    | ResetCall

  /** What a field writer answers when it is asked for its outputs and sizes. */
  datatype WriterReport = WriterReport(
    rowGroupStatistics: map<ColumnId, ColumnStatistics>,
    stripeStatistics: map<ColumnId, ColumnStatistics>,
    indexStreams: seq<StreamDataOutput>,
    bloomFilters: seq<StreamDataOutput>,
    dataStreams: seq<StreamDataOutput>,
    encodings: map<ColumnId, ColumnEncoding>,
    bufferedBytes: nat,
    retainedBytes: nat)

  /**
   * The column writer of one struct field. Its own encoding is not modelled: it logs every
   * state-changing call it receives, in order, and answers queries from `report`, which
   * its environment chooses. Its own nested writers are `nested`.
   */
  class FieldWriter {
    const columnId: ColumnId
    const nested: seq<FieldWriter>
    var calls: seq<WriterCall>
    var report: WriterReport

    constructor (columnId: ColumnId, nested: seq<FieldWriter>, report: WriterReport)
      ensures this.columnId == columnId && this.nested == nested
      ensures calls == [] && this.report == report
    {
      this.columnId, this.nested := columnId, nested;
      calls, this.report := [], report;
    }

    method BeginRowGroup()
      modifies this`calls
      ensures calls == old(calls) + [BeginRowGroupCall]
    {
      calls := calls + [BeginRowGroupCall];
    }

    method WriteBlock(block: seq<FieldValue>)
      modifies this`calls
      ensures calls == old(calls) + [WriteBlockCall(block)]
    {
      calls := calls + [WriteBlockCall(block)];
    }

    method FinishRowGroup() returns (statistics: map<ColumnId, ColumnStatistics>)
      modifies this`calls
      ensures calls == old(calls) + [FinishRowGroupCall]
      ensures statistics == report.rowGroupStatistics
    {
      calls := calls + [FinishRowGroupCall];
      statistics := report.rowGroupStatistics;
    }

    method Close()
      modifies this`calls
      ensures calls == old(calls) + [CloseCall]
    {
      calls := calls + [CloseCall];
    }

    method Reset()
      modifies this`calls
      ensures calls == old(calls) + [ResetCall]
    {
      calls := calls + [ResetCall];
    }
  }

  /** The reports of a sequence of field writers, in order. */
  function Reports(writers: seq<FieldWriter>): (r: seq<WriterReport>)
    reads writers
    ensures |r| == |writers|
    ensures forall i :: 0 <= i < |writers| ==> r[i] == writers[i].report
  {
    if writers == [] then [] else Reports(writers[..|writers| - 1]) + [writers[|writers| - 1].report]
  }

  /** `getNestedColumnWriters`: each field writer followed by its own nested writers (pre-order). */
  function NestedWriters(writers: seq<FieldWriter>): seq<FieldWriter>
  {
    if writers == [] then []
    else
      var w := writers[|writers| - 1];
      NestedWriters(writers[..|writers| - 1]) + [w] + w.nested
  }

  /** Every field writer is among the nested writers, and the nested writers are nothing but field writers and their nested writers. */
  lemma {:induction false} NestedWritersSpec(writers: seq<FieldWriter>)
    ensures forall w :: w in writers ==> w in NestedWriters(writers)
    ensures forall v :: v in NestedWriters(writers) ==> v in writers || exists w :: w in writers && v in w.nested
    ensures |NestedWriters(writers)| >= |writers|
  {
    if writers != [] {
      var init := writers[..|writers| - 1];
      var w := writers[|writers| - 1];
      NestedWritersSpec(init);
      assert writers == init + [w];
    }
  }

  function ChildIndexStreams(reports: seq<WriterReport>): seq<StreamDataOutput>
  {
    if reports == [] then []
    else
      var r := reports[|reports| - 1];
      ChildIndexStreams(reports[..|reports| - 1]) + r.indexStreams + r.bloomFilters
  }

  function ChildDataStreams(reports: seq<WriterReport>): seq<StreamDataOutput>
  {
    if reports == [] then []
    else ChildDataStreams(reports[..|reports| - 1]) + reports[|reports| - 1].dataStreams
  }

  function SumBufferedBytes(reports: seq<WriterReport>): nat
  {
    if reports == [] then 0
    else SumBufferedBytes(reports[..|reports| - 1]) + reports[|reports| - 1].bufferedBytes
  }

  function SumRetainedBytes(reports: seq<WriterReport>): nat
  {
    if reports == [] then 0
    else SumRetainedBytes(reports[..|reports| - 1]) + reports[|reports| - 1].retainedBytes
  }

  function RowGroupStatisticsOf(reports: seq<WriterReport>): (r: seq<map<ColumnId, ColumnStatistics>>)
    ensures |r| == |reports|
    ensures forall i :: 0 <= i < |reports| ==> r[i] == reports[i].rowGroupStatistics
  {
    seq(|reports|, i requires 0 <= i < |reports| => reports[i].rowGroupStatistics)
  }

  function StripeStatisticsOf(reports: seq<WriterReport>): (r: seq<map<ColumnId, ColumnStatistics>>)
    ensures |r| == |reports|
    ensures forall i :: 0 <= i < |reports| ==> r[i] == reports[i].stripeStatistics
  {
    seq(|reports|, i requires 0 <= i < |reports| => reports[i].stripeStatistics)
  }

  function EncodingsOf(reports: seq<WriterReport>): (r: seq<map<ColumnId, ColumnEncoding>>)
    ensures |r| == |reports|
    ensures forall i :: 0 <= i < |reports| ==> r[i] == reports[i].encodings
  {
    seq(|reports|, i requires 0 <= i < |reports| => reports[i].encodings)
  }
}
