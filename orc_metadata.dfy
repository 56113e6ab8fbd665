/**
 * The ORC metadata values a column writer produces: column statistics and their merge,
 * present-stream checkpoints and their position lists, row-group indexes, streams and
 * column encodings, and the column-id keyed maps the writers assemble.
 */
module OrcMetadata {
  import opened Errors

  /** An `OrcColumnId`: the column's position in the flattened schema tree. */
  type ColumnId = nat

  /**
   * Column statistics reduced to the part a struct column has: the number of non-null
   * values. A struct writer creates them with every type-specific statistic absent and a
   * minimum average value size of 0.
   */
  datatype ColumnStatistics = ColumnStatistics(numberOfValues: nat)

  /** Merging two statistics of the same column adds their value counts. */
  function Merge(a: ColumnStatistics, b: ColumnStatistics): (r: ColumnStatistics)
    ensures r.numberOfValues == a.numberOfValues + b.numberOfValues
  {
    ColumnStatistics(a.numberOfValues + b.numberOfValues)
  }

  /**
   * `ColumnStatistics.mergeColumnStatistics`: the left fold of `Merge` over a row-group
   * history, starting from the all-zero statistics (so an empty history is tolerated).
   */
  function MergeColumnStatistics(history: seq<ColumnStatistics>): ColumnStatistics
  {
    if history == [] then ColumnStatistics(0)
    else Merge(MergeColumnStatistics(history[..|history| - 1]), history[|history| - 1])
  }

  /** The sum of the value counts of a history, defined independently of the fold. */
  function TotalValues(history: seq<ColumnStatistics>): nat
  {
    if history == [] then 0 else history[0].numberOfValues + TotalValues(history[1..])
  }

  lemma {:induction false} TotalValuesAppend(h1: seq<ColumnStatistics>, h2: seq<ColumnStatistics>)
    ensures TotalValues(h1 + h2) == TotalValues(h1) + TotalValues(h2)
  {
    if h1 == [] {
      assert h1 + h2 == h2;
    } else {
      assert (h1 + h2)[1..] == h1[1..] + h2;
      TotalValuesAppend(h1[1..], h2);
    }
  }

  /** The merged stripe statistics count exactly the values of every row group in the history. */
  lemma {:induction false} MergeColumnStatisticsCountsAll(history: seq<ColumnStatistics>)
    ensures MergeColumnStatistics(history).numberOfValues == TotalValues(history)
  {
    if history != [] {
      var init := history[..|history| - 1];
      MergeColumnStatisticsCountsAll(init);
      TotalValuesAppend(init, [history[|history| - 1]]);
      assert init + [history[|history| - 1]] == history;
    }
  }

  /** Merging split histories gives the merge of the whole history (row groups into stripes). */
  lemma {:induction false} MergeColumnStatisticsSplit(h1: seq<ColumnStatistics>, h2: seq<ColumnStatistics>)
    ensures MergeColumnStatistics(h1 + h2) == Merge(MergeColumnStatistics(h1), MergeColumnStatistics(h2))
  {
    MergeColumnStatisticsCountsAll(h1 + h2);
    MergeColumnStatisticsCountsAll(h1);
    MergeColumnStatisticsCountsAll(h2);
    TotalValuesAppend(h1, h2);
  }

  /**
   * Where an ORC input stream resumes: the offset of the compressed block holding the
   * position, and the offset inside that block once decompressed (the offset inside the
   * whole stream when it is not compressed).
   */
  datatype InputStreamCheckpoint = InputStreamCheckpoint(compressedBlockOffset: nat, decompressedOffset: nat)

  /** A checkpoint of a byte run-length stream: where its current run starts, and the offset inside the run. */
  datatype ByteStreamCheckpoint = ByteStreamCheckpoint(input: InputStreamCheckpoint, rleOffset: nat)

  /**
   * A checkpoint of the present stream, a boolean stream that packs eight booleans per
   * byte into a byte run-length stream: the byte stream's checkpoint for the next whole
   * byte, and how many bits of the next byte are already taken.
   */
  datatype BooleanStreamCheckpoint = BooleanStreamCheckpoint(byteCheckpoint: ByteStreamCheckpoint, bitOffset: nat)

  /**
   * The run-length encoder and compressor under a boolean stream, which are not modelled:
   * given the booleans already packed into whole bytes, the byte stream's checkpoint for
   * the next byte.
   */
  type ByteEncoder = seq<bool> -> ByteStreamCheckpoint

  /** The booleans a boolean stream has packed into whole bytes: all but the last partial byte. */
  function FlushedBits(values: seq<bool>): (r: seq<bool>)
    ensures |r| % 8 == 0 && |r| <= |values| < |r| + 8
    ensures r == values[..|r|]
  {
    values[..|values| - |values| % 8]
  }

  /** The checkpoint a boolean stream records after writing `values`. */
  function CheckpointAt(values: seq<bool>, encoder: ByteEncoder): (cp: BooleanStreamCheckpoint)
    ensures cp.bitOffset < 8
    ensures |FlushedBits(values)| + cp.bitOffset == |values|
    ensures cp.byteCheckpoint == encoder(FlushedBits(values))
  {
    BooleanStreamCheckpoint(encoder(FlushedBits(values)), |values| % 8)
  }

  /** An input stream's positions: the compressed block offset (only when compressed), then the decompressed offset. */
  function InputStreamPositions(cp: InputStreamCheckpoint, compressed: bool): seq<int>
  {
    (if compressed then [cp.compressedBlockOffset] else []) + [cp.decompressedOffset]
  }

  /** A byte run-length stream's positions: its input stream's positions, then the offset inside the run. */
  function ByteStreamPositions(cp: ByteStreamCheckpoint, compressed: bool): seq<int>
  {
    InputStreamPositions(cp.input, compressed) + [cp.rleOffset]
  }

  /** A boolean stream's positions: its byte stream's positions, then the bit offset. */
  function ToPositionList(cp: BooleanStreamCheckpoint, compressed: bool): seq<int>
  {
    ByteStreamPositions(cp.byteCheckpoint, compressed) + [cp.bitOffset]
  }

  /**
   * A present checkpoint's position list has 3 entries, or 4 when compressed: the
   * compressed block offset (only when compressed), the decompressed offset and the run
   * offset of the byte stream, and last the bit offset, which with eight booleans per
   * flushed byte locates the next boolean.
   */
  lemma PositionListShape(values: seq<bool>, encoder: ByteEncoder, compressed: bool)
    ensures var ps := ToPositionList(CheckpointAt(values, encoder), compressed);
            var b := encoder(FlushedBits(values));
            && |ps| == (if compressed then 4 else 3)
            && (compressed ==> ps[0] == b.input.compressedBlockOffset)
            && ps[|ps| - 3] == b.input.decompressedOffset
            && ps[|ps| - 2] == b.rleOffset
            && 8 * (|values| / 8) + ps[|ps| - 1] == |values|
  {
  }

  datatype RowGroupIndex = RowGroupIndex(positions: seq<int>, statistics: ColumnStatistics)

  datatype StreamKind =
    | PRESENT | DATA | LENGTH | DICTIONARY_DATA | DICTIONARY_COUNT | SECONDARY
    | ROW_INDEX | BLOOM_FILTER | BLOOM_FILTER_UTF8

  datatype Stream = Stream(columnId: ColumnId, kind: StreamKind)

  /**
   * What a finalized stream holds. Serialization is not modelled: a row-index stream holds
   * the indexes it serializes, a present stream the booleans it encodes, and any other
   * stream its bytes.
   */
  datatype Payload =
    | RowIndexes(indexes: seq<RowGroupIndex>)
    | BooleanBits(bits: seq<bool>)
    | Bytes(data: seq<int>)

  datatype StreamDataOutput = StreamDataOutput(stream: Stream, payload: Payload)

  datatype ColumnEncodingKind = DIRECT | DICTIONARY | DIRECT_V2 | DICTIONARY_V2

  datatype ColumnEncoding = ColumnEncoding(kind: ColumnEncodingKind, dictionarySize: nat)

  datatype CompressionKind = NONE | ZLIB | SNAPPY | LZ4 | ZSTD

  /** The union of a sequence of maps (a later map wins on a shared key). */
  function UnionAll<V>(maps: seq<map<ColumnId, V>>): map<ColumnId, V>
  {
    if maps == [] then map[] else UnionAll(maps[..|maps| - 1]) + maps[|maps| - 1]
  }

  /** `id` is in none of the maps and no two of the maps share a key. */
  predicate Disjoint<V>(id: ColumnId, maps: seq<map<ColumnId, V>>)
  {
    && (forall i :: 0 <= i < |maps| ==> id !in maps[i])
    && (forall i, j :: 0 <= i < j < |maps| ==> maps[i].Keys !! maps[j].Keys)
  }

  /**
   * An `ImmutableMap.Builder` that is given `id -> v`, then every entry of every map in
   * `maps`, and is then built with `buildOrThrow`: it throws on a repeated key.
   */
  function Combine<V>(id: ColumnId, v: V, maps: seq<map<ColumnId, V>>): Result<map<ColumnId, V>>
  {
    if Disjoint(id, maps) then Ok(map[id := v] + UnionAll(maps)) else Err(IllegalArgumentException)
  }

  /** With disjoint keys, the union holds every key of every map with that map's value, and nothing else. */
  lemma UnionAllLookup<V>(id: ColumnId, maps: seq<map<ColumnId, V>>)
    requires Disjoint(id, maps)
    ensures forall i, k :: 0 <= i < |maps| && k in maps[i] ==> k in UnionAll(maps) && UnionAll(maps)[k] == maps[i][k]
    ensures forall k :: k in UnionAll(maps) ==> exists i :: 0 <= i < |maps| && k in maps[i]
  {
    forall i, k | 0 <= i < |maps| && k in maps[i]
      ensures k in UnionAll(maps) && UnionAll(maps)[k] == maps[i][k]
    {
      UnionAllHas(maps, i, k);
    }
    forall k | k in UnionAll(maps)
      ensures exists i :: 0 <= i < |maps| && k in maps[i]
    {
      var i := UnionAllSource(maps, k);
    }
  }

  /** A key of one of pairwise disjoint maps is in their union, with that map's value. */
  lemma {:induction false} UnionAllHas<V>(maps: seq<map<ColumnId, V>>, i: nat, k: ColumnId)
    requires forall i, j :: 0 <= i < j < |maps| ==> maps[i].Keys !! maps[j].Keys
    requires i < |maps| && k in maps[i]
    ensures k in UnionAll(maps) && UnionAll(maps)[k] == maps[i][k]
  {
    var init, last := maps[..|maps| - 1], maps[|maps| - 1];
    assert UnionAll(maps) == UnionAll(init) + last;
    if i < |maps| - 1 {
      assert init[i] == maps[i];
      assert k !in last;
      UnionAllHas(init, i, k);
    }
  }

  /** Every key of the union comes from one of the maps. */
  lemma {:induction false} UnionAllSource<V>(maps: seq<map<ColumnId, V>>, k: ColumnId) returns (i: nat)
    requires k in UnionAll(maps)
    ensures i < |maps| && k in maps[i]
  {
    var init, last := maps[..|maps| - 1], maps[|maps| - 1];
    assert UnionAll(maps) == UnionAll(init) + last;
    if k in last {
      i := |maps| - 1;
    } else {
      i := UnionAllSource(init, k);
      assert init[i] == maps[i];
    }
  }

  /**
   * The combined map fails exactly on a repeated column id; when it succeeds it maps `id`
   * to `v`, every child key to the child's value, and holds no other key.
   */
  lemma CombineLookup<V>(id: ColumnId, v: V, maps: seq<map<ColumnId, V>>)
    ensures Combine(id, v, maps).Ok? <==> Disjoint(id, maps)
    ensures Combine(id, v, maps).Err? ==> Combine(id, v, maps).error == IllegalArgumentException
    ensures Combine(id, v, maps).Ok? ==>
      var m := Combine(id, v, maps).value;
      && id in m && m[id] == v
      && (forall i, k :: 0 <= i < |maps| && k in maps[i] ==> k in m && m[k] == maps[i][k])
      && (forall k :: k in m ==> k == id || exists i :: 0 <= i < |maps| && k in maps[i])
  {
    if Disjoint(id, maps) {
      UnionAllLookup(id, maps);
      var m := Combine(id, v, maps).value;
      assert id !in UnionAll(maps);
      forall k | k in m
        ensures k == id || exists i :: 0 <= i < |maps| && k in maps[i]
      {
        if k != id {
          assert k in UnionAll(maps);
        }
      }
    }
  }
}
