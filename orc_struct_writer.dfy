/**
 * The ORC struct column writer: it records the struct's nulls in its present stream,
 * hands the null-suppressed field values to one writer per field, keeps one statistics
 * entry per row group, and assembles its own and its fields' index streams, data streams,
 * encodings and statistics once it is closed.
 */
module OrcStructWriter {
  import opened Errors
  import opened OrcMetadata
  import opened OrcBlocks
  import opened OrcStreams

  /** A struct column is always encoded DIRECT, without a dictionary. */
  const COLUMN_ENCODING: ColumnEncoding := ColumnEncoding(DIRECT, 0)

  /**
   * The positions of a row group's index entry: none without a present stream, otherwise
   * the present checkpoint's 3 positions (4 when compressed), the bit offset last.
   */
  function CreateStructColumnPositionList(compressed: bool, presentCheckpoint: Option<BooleanStreamCheckpoint>): (r: seq<int>)
    ensures r == [] <==> presentCheckpoint.None?
    ensures presentCheckpoint.Some? ==>
              |r| == (if compressed then 4 else 3) && r[|r| - 1] == presentCheckpoint.value.bitOffset
  {
    match presentCheckpoint
    case None => []
    case Some(cp) => ToPositionList(cp, compressed)
  }

  predicate DistinctWriters(writers: seq<FieldWriter>)
  {
    forall i, j :: 0 <= i < j < |writers| ==> writers[i] != writers[j]
  }

  class StructColumnWriter {
    const columnId: ColumnId
    const compressed: bool
    const presentStream: PresentOutputStream
    const structFields: seq<FieldWriter>
    /** The writer's own size and the size of one retained statistics entry, as the JVM lays them out. */
    const instanceSize: nat
    const statisticsRetainedSize: nat

    var rowGroupColumnStatistics: seq<ColumnStatistics>
    var nonNullValueCount: nat
    var closed: bool

    /**
     * The field writers are distinct (the writer owns them exclusively), and every
     * non-null value written since the last reset is counted once: either in a finished
     * row group or in the pending counter.
     */
    ghost predicate Valid()
      reads this, presentStream
    {
      && DistinctWriters(structFields)
      && TotalValues(rowGroupColumnStatistics) + nonNullValueCount == CountTrue(presentStream.values)
    }

    /** The state of a newly constructed writer. */
    predicate Pristine()
      reads this, presentStream
    {
      && !closed
      && rowGroupColumnStatistics == []
      && nonNullValueCount == 0
      && presentStream.Pristine()
    }

    constructor (columnId: ColumnId, compression: CompressionKind, bufferSize: int, structFields: seq<FieldWriter>,
                 instanceSize: nat, statisticsRetainedSize: nat, encoder: ByteEncoder)
      requires DistinctWriters(structFields)
      ensures Valid() && Pristine() && fresh(presentStream)
      ensures this.columnId == columnId && this.structFields == structFields
      ensures compressed == (compression != NONE) && presentStream.compressed == compressed
      ensures presentStream.encoder == encoder
      ensures this.instanceSize == instanceSize && this.statisticsRetainedSize == statisticsRetainedSize
    {
      this.columnId := columnId;
      compressed := compression != NONE;
      this.structFields := structFields;
      presentStream := new PresentOutputStream(compression, bufferSize, encoder);
      this.instanceSize, this.statisticsRetainedSize := instanceSize, statisticsRetainedSize;
      rowGroupColumnStatistics, nonNullValueCount, closed := [], 0, false;
    }

    /** Every field writer followed by its own nested writers, in field order. */
    method GetNestedColumnWriters() returns (r: seq<FieldWriter>)
      ensures r == NestedWriters(structFields)
    {
      r := [];
      for i := 0 to |structFields|
        invariant r == NestedWriters(structFields[..i])
      {
        assert structFields[..i + 1][..i] == structFields[..i];
        r := r + [structFields[i]] + structFields[i].nested;
      }
      assert structFields[..|structFields|] == structFields;
    }

    /** This column's DIRECT encoding together with every field writer's encodings. */
    function GetColumnEncodings(): (r: Result<map<ColumnId, ColumnEncoding>>)
      reads this, structFields
      ensures r.Ok? <==> Disjoint(columnId, EncodingsOf(Reports(structFields)))
      ensures r.Err? ==> r.error == IllegalArgumentException
      ensures r.Ok? ==> columnId in r.value && r.value[columnId] == ColumnEncoding(DIRECT, 0)
      ensures r.Ok? ==> forall i, k :: 0 <= i < |structFields| && k in structFields[i].report.encodings ==>
                          k in r.value && r.value[k] == structFields[i].report.encodings[k]
    {
      var maps := EncodingsOf(Reports(structFields));
      CombineLookup(columnId, COLUMN_ENCODING, maps);
      Combine(columnId, COLUMN_ENCODING, maps)
    }

    /** Records a present-stream checkpoint, then starts a row group in every field writer. */
    method BeginRowGroup()
      requires Valid()
      modifies presentStream, structFields
      ensures Valid()
      ensures presentStream.checkpoints == old(presentStream.checkpoints) + [CheckpointAt(presentStream.values, presentStream.encoder)]
      ensures presentStream.values == old(presentStream.values) && presentStream.closed == old(presentStream.closed)
      ensures forall i :: 0 <= i < |structFields| ==>
                structFields[i].calls == old(structFields[i].calls) + [BeginRowGroupCall]
                && structFields[i].report == old(structFields[i].report)
    {
      presentStream.RecordCheckpoint();
      for i := 0 to |structFields|
        invariant forall j :: 0 <= j < i ==> structFields[j].calls == old(structFields[j].calls) + [BeginRowGroupCall]
        invariant forall j :: i <= j < |structFields| ==> structFields[j].calls == old(structFields[j].calls)
        invariant forall j :: 0 <= j < |structFields| ==> structFields[j].report == old(structFields[j].report)
        modifies structFields
      {
        structFields[i].BeginRowGroup();
      }
    }

    /**
     * Writes one present boolean per position of `block` and counts the non-null ones;
     * unless every position is null, then hands each field writer its field's
     * null-suppressed values.
     */
    method WriteBlock(block: RowBlock) returns (r: Outcome)
      requires Valid()
      requires block.WellFormed() && |block.fieldBlocks| == |structFields|
      modifies this`nonNullValueCount, presentStream, structFields
      ensures Valid()
      ensures presentStream.checkpoints == old(presentStream.checkpoints) && presentStream.closed == old(presentStream.closed)
      ensures forall i :: 0 <= i < |structFields| ==> structFields[i].report == old(structFields[i].report)
      ensures old(closed) ==> r == Fail(IllegalStateException)
      ensures !old(closed) && block.PositionCount() == 0 ==> r == Fail(IllegalArgumentException)
      ensures old(closed) || block.PositionCount() == 0 ==>
                && presentStream.values == old(presentStream.values)
                && nonNullValueCount == old(nonNullValueCount)
      ensures !old(closed) && block.PositionCount() > 0 ==>
                && presentStream.values == old(presentStream.values) + PresentBits(block.isNull)
                && nonNullValueCount == old(nonNullValueCount) + NonNullCount(block.isNull)
                && r == (if |structFields| == 0 then Fail(IndexOutOfBoundsException) else Pass)
      ensures !old(closed) && block.PositionCount() > 0 && !AllNull(block.isNull) ==>
                forall i :: 0 <= i < |structFields| ==>
                  structFields[i].calls == old(structFields[i].calls) + [WriteBlockCall(NullSuppressed(block.isNull, block.fieldBlocks[i]))]
      ensures old(closed) || block.PositionCount() == 0 || AllNull(block.isNull) ==>
                forall i :: 0 <= i < |structFields| ==> structFields[i].calls == old(structFields[i].calls)
    {
      if closed {
        return Fail(IllegalStateException);
      }
      if block.PositionCount() == 0 {
        return Fail(IllegalArgumentException);
      }
      RecordPresence(block.isNull);
      var fields := NullSuppressedFields(block);
      if |fields| == 0 {
        return Fail(IndexOutOfBoundsException);
      }
      NullSuppressedEmpty(block.isNull, block.fieldBlocks[0]);
      if |fields[0]| > 0 {
        WriteFields(fields);
      }
      return Pass;
    }

    /** Writes one present boolean per position and counts the non-null positions. */
    method RecordPresence(isNull: seq<bool>)
      requires Valid()
      modifies this`nonNullValueCount, presentStream
      ensures Valid()
      ensures presentStream.values == old(presentStream.values) + PresentBits(isNull)
      ensures nonNullValueCount == old(nonNullValueCount) + NonNullCount(isNull)
      ensures presentStream.checkpoints == old(presentStream.checkpoints) && presentStream.closed == old(presentStream.closed)
    {
      var position := 0;
      while position < |isNull|
        invariant 0 <= position <= |isNull|
        invariant presentStream.values == old(presentStream.values) + PresentBits(isNull[..position])
        invariant nonNullValueCount == old(nonNullValueCount) + NonNullCount(isNull[..position])
        invariant presentStream.checkpoints == old(presentStream.checkpoints) && presentStream.closed == old(presentStream.closed)
        modifies this`nonNullValueCount, presentStream
      {
        var present := !isNull[position];
        presentStream.WriteBoolean(present);
        if present {
          nonNullValueCount := nonNullValueCount + 1;
        }
        PresentBitsPrefix(isNull, position);
        CountTrueAppend(PresentBits(isNull[..position]), [present]);
        assert CountTrue([present]) == if present then 1 else 0 by {
          assert [present][..0] == [];
        }
        position := position + 1;
      }
      assert isNull[..position] == isNull;
      CountTrueAppend(old(presentStream.values), PresentBits(isNull));
    }

    /** Hands field writer `i` the values `fields[i]`. */
    method WriteFields(fields: seq<seq<FieldValue>>)
      requires DistinctWriters(structFields) && |fields| == |structFields|
      modifies structFields
      ensures forall i :: 0 <= i < |structFields| ==>
                structFields[i].calls == old(structFields[i].calls) + [WriteBlockCall(fields[i])]
                && structFields[i].report == old(structFields[i].report)
    {
      for i := 0 to |structFields|
        invariant forall j :: 0 <= j < i ==> structFields[j].calls == old(structFields[j].calls) + [WriteBlockCall(fields[j])]
        invariant forall j :: i <= j < |structFields| ==> structFields[j].calls == old(structFields[j].calls)
        invariant forall j :: 0 <= j < |structFields| ==> structFields[j].report == old(structFields[j].report)
      {
        structFields[i].WriteBlock(fields[i]);
      }
    }

    /**
     * Closes the row group: appends its statistics (the pending non-null count) to the
     * history, zeroes the counter, finishes every field writer, and returns this column's
     * new statistics together with the field writers'.
     */
    method FinishRowGroup() returns (r: Result<map<ColumnId, ColumnStatistics>>)
      requires Valid()
      modifies this`rowGroupColumnStatistics, this`nonNullValueCount, structFields
      ensures Valid()
      ensures forall i :: 0 <= i < |structFields| ==> structFields[i].report == old(structFields[i].report)
      ensures old(closed) ==>
                && r == Err(IllegalStateException)
                && rowGroupColumnStatistics == old(rowGroupColumnStatistics)
                && nonNullValueCount == old(nonNullValueCount)
                && forall i :: 0 <= i < |structFields| ==> structFields[i].calls == old(structFields[i].calls)
      ensures !old(closed) ==>
                && rowGroupColumnStatistics == old(rowGroupColumnStatistics) + [ColumnStatistics(old(nonNullValueCount))]
                && nonNullValueCount == 0
                && (forall i :: 0 <= i < |structFields| ==> structFields[i].calls == old(structFields[i].calls) + [FinishRowGroupCall])
                && r == Combine(columnId, ColumnStatistics(old(nonNullValueCount)), RowGroupStatisticsOf(Reports(structFields)))
    {
      if closed {
        return Err(IllegalStateException);
      }
      var statistics := ColumnStatistics(nonNullValueCount);
      TotalValuesAppend(rowGroupColumnStatistics, [statistics]);
      rowGroupColumnStatistics := rowGroupColumnStatistics + [statistics];
      nonNullValueCount := 0;

      var maps: seq<map<ColumnId, ColumnStatistics>> := [];
      for i := 0 to |structFields|
        invariant |maps| == i
        invariant forall j :: 0 <= j < i ==> maps[j] == structFields[j].report.rowGroupStatistics
        invariant forall j :: 0 <= j < i ==> structFields[j].calls == old(structFields[j].calls) + [FinishRowGroupCall]
        invariant forall j :: i <= j < |structFields| ==> structFields[j].calls == old(structFields[j].calls)
        invariant forall j :: 0 <= j < |structFields| ==> structFields[j].report == old(structFields[j].report)
        modifies structFields
      {
        var m := structFields[i].FinishRowGroup();
        maps := maps + [m];
      }
      assert maps == RowGroupStatisticsOf(Reports(structFields));
      return Combine(columnId, statistics, maps);
    }

    /** Marks the writer closed and closes every field writer, then the present stream. */
    method Close()
      requires Valid()
      modifies this`closed, presentStream, structFields
      ensures Valid() && closed
      ensures presentStream.closed
      ensures presentStream.values == old(presentStream.values) && presentStream.checkpoints == old(presentStream.checkpoints)
      ensures forall i :: 0 <= i < |structFields| ==>
                structFields[i].calls == old(structFields[i].calls) + [CloseCall]
                && structFields[i].report == old(structFields[i].report)
    {
      closed := true;
      for i := 0 to |structFields|
        invariant forall j :: 0 <= j < i ==> structFields[j].calls == old(structFields[j].calls) + [CloseCall]
        invariant forall j :: i <= j < |structFields| ==> structFields[j].calls == old(structFields[j].calls)
        invariant forall j :: 0 <= j < |structFields| ==> structFields[j].report == old(structFields[j].report)
        modifies structFields
      {
        structFields[i].Close();
      }
      presentStream.Close();
    }

    /**
     * After `close`: this column's statistics merged over the whole row-group history,
     * together with every field writer's stripe statistics.
     */
    function GetColumnStripeStatistics(): (r: Result<map<ColumnId, ColumnStatistics>>)
      reads this, presentStream, structFields
      ensures !closed ==> r == Err(IllegalStateException)
      ensures r.Ok? <==> closed && Disjoint(columnId, StripeStatisticsOf(Reports(structFields)))
      ensures r.Ok? ==> columnId in r.value && r.value[columnId].numberOfValues == TotalValues(rowGroupColumnStatistics)
      ensures r.Ok? && Valid() ==> r.value[columnId].numberOfValues + nonNullValueCount == CountTrue(presentStream.values)
      ensures r.Ok? ==> forall i, k :: 0 <= i < |structFields| && k in structFields[i].report.stripeStatistics ==>
                          k in r.value && r.value[k] == structFields[i].report.stripeStatistics[k]
    {
      if !closed then Err(IllegalStateException)
      else
        var maps := StripeStatisticsOf(Reports(structFields));
        var merged := MergeColumnStatistics(rowGroupColumnStatistics);
        MergeColumnStatisticsCountsAll(rowGroupColumnStatistics);
        CombineLookup(columnId, merged, maps);
        Combine(columnId, merged, maps)
    }

    /** A struct column has no bloom filters of its own. */
    function GetBloomFilters(): (r: seq<StreamDataOutput>)
      ensures |r| == 0
    {
      []
    }

    /**
     * After `close`: this column's ROW_INDEX stream, with one row-group index per history
     * entry pairing that entry with the matching present checkpoint; then, field by field,
     * the field writer's index streams and bloom filters.
     */
    method GetIndexStreams() returns (r: Result<seq<StreamDataOutput>>)
      ensures !closed ==> r == Err(IllegalStateException)
      ensures r.Ok? <==>
                closed && (!presentStream.Materialized() || |rowGroupColumnStatistics| <= |presentStream.checkpoints|)
      ensures r.Err? && closed ==> r.error == IndexOutOfBoundsException
      ensures r.Ok? ==>
                && |r.value| >= 1
                && r.value[0].stream == Stream(columnId, ROW_INDEX)
                && r.value[0].payload.RowIndexes?
                && r.value[1..] == ChildIndexStreams(Reports(structFields))
      ensures r.Ok? ==>
                var indexes := r.value[0].payload.indexes;
                && |indexes| == |rowGroupColumnStatistics|
                && forall g :: 0 <= g < |indexes| ==>
                     indexes[g].statistics == rowGroupColumnStatistics[g]
                     && indexes[g].positions ==
                          if presentStream.Materialized()
                          then ToPositionList(presentStream.checkpoints[g], compressed)
                          else []
    {
      if !closed {
        return Err(IllegalStateException);
      }
      var presentCheckpoints := presentStream.GetCheckpoints();
      var indexes: seq<RowGroupIndex> := [];
      for g := 0 to |rowGroupColumnStatistics|
        invariant |indexes| == g
        invariant presentStream.Materialized() ==> g <= |presentStream.checkpoints|
        invariant forall k :: 0 <= k < g ==>
                    indexes[k].statistics == rowGroupColumnStatistics[k]
                    && indexes[k].positions ==
                         if presentStream.Materialized()
                         then ToPositionList(presentStream.checkpoints[k], compressed)
                         else []
      {
        var presentCheckpoint: Option<BooleanStreamCheckpoint> := None;
        if presentCheckpoints.Some? {
          if g >= |presentCheckpoints.value| {
            return Err(IndexOutOfBoundsException);
          }
          presentCheckpoint := Some(presentCheckpoints.value[g]);
        }
        var positions := CreateStructColumnPositionList(compressed, presentCheckpoint);
        indexes := indexes + [RowGroupIndex(positions, rowGroupColumnStatistics[g])];
      }

      var rowIndex := StreamDataOutput(Stream(columnId, ROW_INDEX), RowIndexes(indexes));
      var streams := [rowIndex];
      ghost var reports := Reports(structFields);
      for i := 0 to |structFields|
        invariant streams == [rowIndex] + ChildIndexStreams(reports[..i])
      {
        assert reports[..i + 1][..i] == reports[..i];
        streams := streams + structFields[i].report.indexStreams + structFields[i].report.bloomFilters;
      }
      assert reports[..|structFields|] == reports;
      return Ok(streams);
    }

    /** After `close`: the present stream, if it exists, then every field writer's data streams in field order. */
    method GetDataStreams() returns (r: Result<seq<StreamDataOutput>>)
      ensures !closed ==> r == Err(IllegalStateException)
      ensures closed ==> r.Ok?
      ensures r.Ok? ==>
                r.value == (if presentStream.Materialized()
                            then [StreamDataOutput(Stream(columnId, PRESENT), BooleanBits(presentStream.values))]
                            else [])
                           + ChildDataStreams(Reports(structFields))
    {
      if !closed {
        return Err(IllegalStateException);
      }
      var streams: seq<StreamDataOutput> := [];
      var presentOutput := presentStream.GetStreamDataOutput(columnId);
      if presentOutput.Some? {
        streams := [presentOutput.value];
      }
      ghost var head := streams;
      ghost var reports := Reports(structFields);
      for i := 0 to |structFields|
        invariant streams == head + ChildDataStreams(reports[..i])
      {
        assert reports[..i + 1][..i] == reports[..i];
        streams := streams + structFields[i].report.dataStreams;
      }
      assert reports[..|structFields|] == reports;
      return Ok(streams);
    }

    /** The present stream's buffered bytes plus every field writer's. */
    method GetBufferedBytes() returns (r: nat)
      ensures r == presentStream.bufferedBytes + SumBufferedBytes(Reports(structFields))
    {
      r := presentStream.bufferedBytes;
      ghost var reports := Reports(structFields);
      for i := 0 to |structFields|
        invariant r == presentStream.bufferedBytes + SumBufferedBytes(reports[..i])
      {
        assert reports[..i + 1][..i] == reports[..i];
        r := r + structFields[i].report.bufferedBytes;
      }
      assert reports[..|structFields|] == reports;
    }

    /**
     * The writer's own size, the present stream's and every field writer's retained
     * bytes, and one retained statistics entry per row group of the history.
     */
    method GetRetainedBytes() returns (r: nat)
      ensures r == instanceSize + presentStream.retainedBytes + SumRetainedBytes(Reports(structFields))
                   + |rowGroupColumnStatistics| * statisticsRetainedSize
    {
      r := instanceSize + presentStream.retainedBytes;
      ghost var reports := Reports(structFields);
      for i := 0 to |structFields|
        invariant r == instanceSize + presentStream.retainedBytes + SumRetainedBytes(reports[..i])
      {
        assert reports[..i + 1][..i] == reports[..i];
        r := r + structFields[i].report.retainedBytes;
      }
      assert reports[..|structFields|] == reports;
      ghost var fieldsAndSelf := r;
      for g := 0 to |rowGroupColumnStatistics|
        invariant r == fieldsAndSelf + g * statisticsRetainedSize
      {
        r := r + statisticsRetainedSize;
      }
    }

    /** Reopens the writer and returns it, the present stream and every field writer to their initial state. */
    method Reset()
      requires Valid()
      modifies this`closed, this`rowGroupColumnStatistics, this`nonNullValueCount, presentStream, structFields
      ensures Valid() && Pristine()
      ensures forall i :: 0 <= i < |structFields| ==>
                structFields[i].calls == old(structFields[i].calls) + [ResetCall]
                && structFields[i].report == old(structFields[i].report)
    {
      closed := false;
      presentStream.Reset();
      for i := 0 to |structFields|
        invariant forall j :: 0 <= j < i ==> structFields[j].calls == old(structFields[j].calls) + [ResetCall]
        invariant forall j :: i <= j < |structFields| ==> structFields[j].calls == old(structFields[j].calls)
        invariant forall j :: 0 <= j < |structFields| ==> structFields[j].report == old(structFields[j].report)
        modifies structFields
      {
        structFields[i].Reset();
      }
      rowGroupColumnStatistics := [];
      nonNullValueCount := 0;
    }
  }
}
