# Trino core pieces, modelled in Dafny

This project models five small parts of the Trino query engine and proves properties of them.

- **ORC struct column writer** (`OrcStructWriter`, with `OrcStreams`, `OrcBlocks` and `OrcMetadata`).
  The writer of an ORC `struct` column goes through row groups (`beginRowGroup`, `writeBlock`*, `finishRowGroup`), then `close`, then output extraction, then `reset`.
  It records one present boolean per row in its present stream.
  It hands each field writer that field's values with the null rows removed.
  It keeps one statistics entry (a non-null count) per finished row group.
  It assembles statistics, encodings, index streams and data streams from its own state and its field writers'.
  The writer is a class whose fields the methods update.
  Its invariant `Valid()` says two things: the field writers are distinct, and every present value written since the last reset is counted exactly once, either in a finished row group or in the pending counter.
- **JDBC column metadata** (`JdbcColumnInfo`).
  `typeInfo` maps a client type's raw name to a JDBC type code and Java class.
  `getType` maps a type parameter to its JDBC type.
  `setTypeInfo` writes type code, class, parameter types and per-type signedness, precision, scale and display size into a `ColumnInfo.Builder`.
  The builder's setters each overwrite one field, and `build` runs the null-checking constructor.
- **NUMBER operators** (`NumberOperators`, with `JavaNumbers`).
  A NUMBER is a `java.math.BigDecimal`: an unscaled integer and a scale.
  The model covers the casts to tinyint, smallint, integer and bigint (HALF_UP to scale 0, then a range check).
  It covers the zero-divisor error and the result of `divide` and `modulus`.
  It covers the length rule of the cast to varchar.
- **UUID casts** (`UuidOperators`).
  These are the length-gated casts between varbinary and UUID (16 bytes) and from varchar to UUID (36 bytes), and the cast from UUID to `varchar(x)`.
  The canonical 8-4-4-4-12 text of RFC 4122 section 3 is given as a concrete parser and renderer, with a round-trip proof.
- **Plugin feature record** (`PluginInstaller`).
  This covers the `InstalledFeatures` and `InstalledFeature` records with their null checks, `isEmpty`, `names(feature)`, the mutable `Builder`, and the `Feature` enum with its descriptions.

Shared error and result types live in `Errors`, and Java integer widths in `JavaNumbers`.
Java's thrown exceptions are modelled as `Err(...)` results (`Fail(...)` for methods without a value).
A Java `null` argument is modelled as `None`.

Where the code and its surrounding description differ, the model follows the code:

- `finishRowGroup` checks that the writer is open (line 129) before it appends statistics.
- `writeBlock` reads `fields.get(0)` without checking that the struct has fields. With zero fields it records the present bits and then fails with an index error. The model keeps that order.
- The display size of `decimal(p, s)` is computed in `int` arithmetic as `p + 2`, so it wraps for `p` near `Integer.MAX_VALUE`. The model wraps it explicitly (`ToInt`).
- `date` sets no precision, so a builder's earlier precision survives it.

## Model

| member | source | states |
|---|---|---|
| OrcStructWriter.StructColumnWriter.constructor | lib/trino-orc/src/main/java/io/trino/orc/writer/StructColumnWriter.java:63-69 | a new writer is open, has an empty history and a zero counter, owns a fresh empty present stream, is compressed exactly when the compression kind is not NONE, and satisfies the invariant |
| OrcStructWriter.StructColumnWriter.GetNestedColumnWriters | lib/trino-orc/src/main/java/io/trino/orc/writer/StructColumnWriter.java:72-81 | the result is the pre-order flattening of the field writers: each field writer followed by its own nested writers, in field order |
| OrcStreams.NestedWritersSpec | lib/trino-orc/src/main/java/io/trino/orc/writer/StructColumnWriter.java:72-81 | every field writer appears in the flattening; every writer in it is a field writer or nested in one; the flattening is at least as long as the field list |
| OrcStructWriter.StructColumnWriter.GetColumnEncodings | lib/trino-orc/src/main/java/io/trino/orc/writer/StructColumnWriter.java:84-92 | succeeds exactly when this column and the field writers' encodings use pairwise distinct column ids (otherwise IllegalArgumentException); the result maps this column to DIRECT and every field writer's column to that writer's encoding |
| OrcStructWriter.StructColumnWriter.BeginRowGroup | lib/trino-orc/src/main/java/io/trino/orc/writer/StructColumnWriter.java:95-100 | the present stream gains one checkpoint at its current position and no values; every field writer receives exactly one beginRowGroup; the invariant is kept |
| OrcStructWriter.StructColumnWriter.WriteBlock | lib/trino-orc/src/main/java/io/trino/orc/writer/StructColumnWriter.java:103-124 | a closed writer fails with IllegalStateException and an empty block with IllegalArgumentException, both changing nothing; otherwise the present stream gains `!isNull(p)` for each position in order and the counter grows by the number of non-null positions; unless every row is null, field writer i receives exactly one call holding field i with the null rows removed, and otherwise no field writer is called; with no fields the result is an index error; the invariant is kept |
| OrcStructWriter.StructColumnWriter.RecordPresence | lib/trino-orc/src/main/java/io/trino/orc/writer/StructColumnWriter.java:108-115 | the loop over positions appends exactly the present bits of the block and adds exactly its non-null count, keeping the invariant |
| OrcStructWriter.StructColumnWriter.WriteFields | lib/trino-orc/src/main/java/io/trino/orc/writer/StructColumnWriter.java:120-122 | field writer i receives exactly one writeBlock with the i-th field block, and no other writer state changes |
| OrcStructWriter.StructColumnWriter.FinishRowGroup | lib/trino-orc/src/main/java/io/trino/orc/writer/StructColumnWriter.java:127-140 | a closed writer fails with IllegalStateException and changes nothing; otherwise the history gains one entry counting the pending non-null values, the counter becomes 0, every field writer is finished once, and the result is this column's new entry combined with every field writer's row-group statistics (IllegalArgumentException on a duplicate column id) |
| OrcStructWriter.StructColumnWriter.Close | lib/trino-orc/src/main/java/io/trino/orc/writer/StructColumnWriter.java:143-148 | the writer and its present stream end closed, with values and checkpoints unchanged; every field writer is closed once |
| OrcStructWriter.StructColumnWriter.GetColumnStripeStatistics | lib/trino-orc/src/main/java/io/trino/orc/writer/StructColumnWriter.java:151-160 | fails with IllegalStateException unless closed; succeeds exactly when closed and the column ids are distinct; this column's entry counts every non-null value of the whole history, which under the invariant is every present value written minus the pending ones; every field writer's entries are included unchanged |
| OrcStructWriter.StructColumnWriter.GetIndexStreams | lib/trino-orc/src/main/java/io/trino/orc/writer/StructColumnWriter.java:163-189 | fails with IllegalStateException unless closed; fails with an index error when the present stream exists and has fewer checkpoints than row groups; otherwise the first stream is this column's ROW_INDEX, holding one index per history entry that pairs entry g with present checkpoint g (an empty position list without a present stream), followed by each field writer's index streams and then its bloom filters, in field order |
| OrcStructWriter.StructColumnWriter.GetDataStreams | lib/trino-orc/src/main/java/io/trino/orc/writer/StructColumnWriter.java:206-217 | fails with IllegalStateException unless closed and succeeds otherwise; the present stream's output comes first, only when that stream exists; it is followed by every field writer's data streams in field order |
| OrcStructWriter.StructColumnWriter.GetBufferedBytes | lib/trino-orc/src/main/java/io/trino/orc/writer/StructColumnWriter.java:219-227 | the present stream's buffered bytes plus the sum of every field writer's |
| OrcStructWriter.StructColumnWriter.GetRetainedBytes | lib/trino-orc/src/main/java/io/trino/orc/writer/StructColumnWriter.java:229-240 | the writer's own size plus the present stream's and every field writer's retained bytes plus one statistics size per history entry |
| OrcStructWriter.StructColumnWriter.Reset | lib/trino-orc/src/main/java/io/trino/orc/writer/StructColumnWriter.java:242-250 | the writer returns to the state of a new one (open, empty history, zero counter, empty present stream) and every field writer is reset once |
| OrcStreams.PresentOutputStream.GetCheckpoints | lib/trino-orc/src/main/java/io/trino/orc/writer/StructColumnWriter.java:170 | the checkpoints are reported exactly when the present stream exists, and they are all the recorded ones |
| OrcStreams.PresentOutputStream.GetStreamDataOutput | lib/trino-orc/src/main/java/io/trino/orc/writer/StructColumnWriter.java:212 | an output exists exactly when the present stream does, and it is this column's PRESENT stream holding every written value |
| OrcMetadata.CheckpointAt | lib/trino-orc/src/main/java/io/trino/orc/writer/StructColumnWriter.java:97 | a checkpoint's bit offset is below 8 and counts the booleans written after the last whole byte; its byte part is the byte stream's checkpoint after those whole bytes |
| OrcMetadata.PositionListShape | lib/trino-orc/src/main/java/io/trino/orc/writer/StructColumnWriter.java:197-204 | a present checkpoint's position list has 3 entries, or 4 when compressed: compressed block offset (compressed only), decompressed offset, run offset, then the bit offset that with eight booleans per byte locates the next boolean |
| OrcStructWriter.CreateStructColumnPositionList | lib/trino-orc/src/main/java/io/trino/orc/writer/StructColumnWriter.java:197-204 | a row group's positions are empty exactly without a present checkpoint, and otherwise are the checkpoint's 3 positions (4 when compressed), the bit offset last |
| OrcStructWriter.StructColumnWriter.GetBloomFilters | lib/trino-orc/src/main/java/io/trino/orc/writer/StructColumnWriter.java:191-195 | a struct column contributes no bloom filter streams of its own |
| OrcMetadata.MergeColumnStatisticsCountsAll | lib/trino-orc/src/main/java/io/trino/orc/writer/StructColumnWriter.java:155 | merging the history counts every value of every row group |
| OrcMetadata.MergeColumnStatisticsSplit | lib/trino-orc/src/main/java/io/trino/orc/writer/StructColumnWriter.java:155 | merging a split history is merging the merges of its parts |
| OrcMetadata.TotalValuesAppend | lib/trino-orc/src/main/java/io/trino/orc/writer/StructColumnWriter.java:131 | the values counted by a history are additive over concatenation |
| OrcMetadata.CombineLookup | lib/trino-orc/src/main/java/io/trino/orc/writer/StructColumnWriter.java:134-139 | building a map from this column's entry and the field writers' maps succeeds exactly when all keys are distinct; it then holds this column's entry, every field writer's entries, and nothing else |
| OrcMetadata.UnionAllLookup | lib/trino-orc/src/main/java/io/trino/orc/writer/StructColumnWriter.java:136-138 | with distinct keys, the union of the field writers' maps holds each of their entries unchanged and no other key |
| OrcMetadata.UnionAllHas | lib/trino-orc/src/main/java/io/trino/orc/writer/StructColumnWriter.java:136-138 | a key of one of pairwise disjoint maps is in their union with that map's value |
| OrcMetadata.UnionAllSource | lib/trino-orc/src/main/java/io/trino/orc/writer/StructColumnWriter.java:136-138 | every key of the union comes from one of the maps |
| OrcBlocks.PresentBits | lib/trino-orc/src/main/java/io/trino/orc/writer/StructColumnWriter.java:109-111 | one present bit per position, the negation of that position's null flag |
| OrcBlocks.NullSuppressedFields | lib/trino-orc/src/main/java/io/trino/orc/writer/StructColumnWriter.java:118 | one null-suppressed block per field, in field order |
| OrcBlocks.NullSuppressedSpec | lib/trino-orc/src/main/java/io/trino/orc/writer/StructColumnWriter.java:118 | a null-suppressed field is exactly the field's values at the non-null positions, in position order |
| OrcBlocks.NonNullPositionsSpec | lib/trino-orc/src/main/java/io/trino/orc/writer/StructColumnWriter.java:118 | the non-null positions are strictly increasing and are exactly the positions whose null flag is false |
| OrcBlocks.NullSuppressedEmpty | lib/trino-orc/src/main/java/io/trino/orc/writer/StructColumnWriter.java:119 | a null-suppressed field has one value per non-null row, so it is empty exactly when every row is null |
| OrcBlocks.NonNullCountZero | lib/trino-orc/src/main/java/io/trino/orc/writer/StructColumnWriter.java:112-114 | the non-null count is at most the position count, and is 0 exactly when every row is null |
| OrcBlocks.CountTrueAppend | lib/trino-orc/src/main/java/io/trino/orc/writer/StructColumnWriter.java:108-115 | counting present values is additive over concatenation |
| OrcBlocks.CountTrueBound | lib/trino-orc/src/main/java/io/trino/orc/writer/StructColumnWriter.java:108-115 | the count of present values is at most the length, and is 0 exactly when none is present |
| JdbcColumnInfo.NewColumnInfo | client/trino-jdbc/src/main/java/io/trino/jdbc/ColumnInfo.java:59-91 | succeeds exactly when no reference argument is null; the first null one, in declaration order, is reported by name; every field of the result is the corresponding argument |
| JdbcColumnInfo.GetType | client/trino-jdbc/src/main/java/io/trino/jdbc/ColumnInfo.java:207-215 | a TYPE parameter has its type's JDBC type; every other kind is JAVA_OBJECT |
| JdbcColumnInfo.ParameterTypes | client/trino-jdbc/src/main/java/io/trino/jdbc/ColumnInfo.java:98-103 | one JDBC type per type argument, in order |
| JdbcColumnInfo.LongArgument | client/trino-jdbc/src/main/java/io/trino/jdbc/ColumnInfo.java:148-149 | a missing argument is an index error, an argument that is not a long is rejected with IllegalArgumentException, and a long argument is narrowed to an int as `intValue()` does |
| JdbcColumnInfo.SetTypeInfo | client/trino-jdbc/src/main/java/io/trino/jdbc/ColumnInfo.java:93-104 | the builder's fields and the outcome are those of `TypeInfoApplied` on the builder's previous fields: type code, class and parameter types first, then the per-type attributes |
| JdbcColumnInfo.SetTypeAttributes | client/trino-jdbc/src/main/java/io/trino/jdbc/ColumnInfo.java:105-204 | the switch on the raw type name leaves the builder as `TypeAttributesApplied` says, including the attributes already set when a type-argument read fails |
| JdbcColumnInfo.SetLengthAttributes | client/trino-jdbc/src/main/java/io/trino/jdbc/ColumnInfo.java:145-156 | `char` and `varchar` set unsigned and scale 0 and then, if the length argument reads, precision and display size |
| JdbcColumnInfo.SetTypeInfoFrame | client/trino-jdbc/src/main/java/io/trino/jdbc/ColumnInfo.java:93-205 | setting type information never touches the type signature, nullability, currency or the label and name fields |
| JdbcColumnInfo.SetTypeInfoTypeFields | client/trino-jdbc/src/main/java/io/trino/jdbc/ColumnInfo.java:95-104 | the type code and class come from `typeInfo`, and the parameter types hold one entry per argument (its type's JDBC type for a TYPE argument, JAVA_OBJECT otherwise), whatever the type |
| JdbcColumnInfo.SetTypeInfoFailures | client/trino-jdbc/src/main/java/io/trino/jdbc/ColumnInfo.java:145-203 | only `char`, `varchar` and `decimal` can fail, and only with an index error or IllegalArgumentException from reading a type argument |
| JdbcColumnInfo.NullTypeIsUnknown | client/trino-jdbc/src/main/java/io/trino/jdbc/ColumnInfo.java:273-274 | the JDBC NULL type is reported exactly for `unknown`, as a plain Object |
| JdbcColumnInfo.TypeInfoOf | client/trino-jdbc/src/main/java/io/trino/jdbc/ColumnInfo.java:217-279 | the JDBC NULL type is reported exactly for `unknown` |
| JdbcColumnInfo.TypeInfoClasses | client/trino-jdbc/src/main/java/io/trino/jdbc/ColumnInfo.java:217-279 | the JAVA_OBJECT types are exactly map, row, json, ipaddress, uuid and every unlisted type; the String-classed types are exactly char, varchar, json, ipaddress and uuid |
| JdbcColumnInfo.TypeAttributes | client/trino-jdbc/src/main/java/io/trino/jdbc/ColumnInfo.java:105-204 | the per-type switch fails exactly when `char` or `varchar` lacks a long length argument or `decimal` lacks a long precision or scale argument; a raw type without a case keeps its attributes and passes |
| JdbcColumnInfo.UnlistedTypeInfo | client/trino-jdbc/src/main/java/io/trino/jdbc/ColumnInfo.java:276-277 | any raw type outside the standard list maps to JAVA_OBJECT and Object |
| JdbcColumnInfo.NumberTypeInfo | client/trino-jdbc/src/main/java/io/trino/jdbc/ColumnInfo.java:239-241 | `number` is OTHER with class Number and succeeds without touching sign, precision, scale or display size, so a new builder reports display size 0 |
| JdbcColumnInfo.ExactIntegerAttributes | client/trino-jdbc/src/main/java/io/trino/jdbc/ColumnInfo.java:109-132 | bigint, integer, smallint and tinyint are signed with scale 0; their precision is the digit count of the type's largest value (19, 10, 5, 3), and their display size is one more, for the sign |
| JdbcColumnInfo.LengthTypeAttributes | client/trino-jdbc/src/main/java/io/trino/jdbc/ColumnInfo.java:145-156 | `char(n)` and `varchar(n)` succeed unsigned with scale 0 and precision and display size `n` |
| JdbcColumnInfo.LengthTypeWithoutArgument | client/trino-jdbc/src/main/java/io/trino/jdbc/ColumnInfo.java:145-156 | `char` or `varchar` without arguments fails with an index error after setting unsigned and scale 0, leaving precision and display size as they were |
| JdbcColumnInfo.DecimalAttributes | client/trino-jdbc/src/main/java/io/trino/jdbc/ColumnInfo.java:198-203 | `decimal(p, s)` succeeds signed, with precision `p`, scale `s` and display size `p + 2` |
| JdbcColumnInfo.TemporalDisplaySizes | client/trino-jdbc/src/main/java/io/trino/jdbc/ColumnInfo.java:31-36 | time and timestamp sizes are 12 and 23 characters, 40 more with a time zone, at precision 3; date is 10 characters, signed, scale 0, and keeps the previous precision |
| JdbcColumnInfo.Builder.constructor | client/trino-jdbc/src/main/java/io/trino/jdbc/ColumnInfo.java:360-377 | a new builder holds Java's default field values: zeros, false and nulls |
| JdbcColumnInfo.Builder.SetColumnType | client/trino-jdbc/src/main/java/io/trino/jdbc/ColumnInfo.java:379-384 | overwrites the type code and nothing else |
| JdbcColumnInfo.Builder.SetColumnJavaClassName | client/trino-jdbc/src/main/java/io/trino/jdbc/ColumnInfo.java:386-391 | overwrites the class name and nothing else |
| JdbcColumnInfo.Builder.SetColumnParameterTypes | client/trino-jdbc/src/main/java/io/trino/jdbc/ColumnInfo.java:393-398 | a null list is rejected with NullPointerException and changes nothing; otherwise it overwrites the parameter types and nothing else |
| JdbcColumnInfo.Builder.SetColumnTypeSignature | client/trino-jdbc/src/main/java/io/trino/jdbc/ColumnInfo.java:400-405 | overwrites the type signature and nothing else |
| JdbcColumnInfo.Builder.SetNullable | client/trino-jdbc/src/main/java/io/trino/jdbc/ColumnInfo.java:407-412 | overwrites the nullability and nothing else |
| JdbcColumnInfo.Builder.SetCurrency | client/trino-jdbc/src/main/java/io/trino/jdbc/ColumnInfo.java:414-419 | overwrites the currency flag and nothing else |
| JdbcColumnInfo.Builder.SetSigned | client/trino-jdbc/src/main/java/io/trino/jdbc/ColumnInfo.java:421-426 | overwrites the sign flag and nothing else |
| JdbcColumnInfo.Builder.SetPrecision | client/trino-jdbc/src/main/java/io/trino/jdbc/ColumnInfo.java:428-433 | overwrites the precision and nothing else |
| JdbcColumnInfo.Builder.SetScale | client/trino-jdbc/src/main/java/io/trino/jdbc/ColumnInfo.java:435-440 | overwrites the scale and nothing else |
| JdbcColumnInfo.Builder.SetColumnDisplaySize | client/trino-jdbc/src/main/java/io/trino/jdbc/ColumnInfo.java:442-447 | overwrites the display size and nothing else |
| JdbcColumnInfo.Builder.SetColumnLabel | client/trino-jdbc/src/main/java/io/trino/jdbc/ColumnInfo.java:449-454 | overwrites the label and nothing else |
| JdbcColumnInfo.Builder.SetColumnName | client/trino-jdbc/src/main/java/io/trino/jdbc/ColumnInfo.java:456-461 | overwrites the column name and nothing else |
| JdbcColumnInfo.Builder.SetTableName | client/trino-jdbc/src/main/java/io/trino/jdbc/ColumnInfo.java:463-468 | overwrites the table name and nothing else |
| JdbcColumnInfo.Builder.SetSchemaName | client/trino-jdbc/src/main/java/io/trino/jdbc/ColumnInfo.java:470-475 | overwrites the schema name and nothing else |
| JdbcColumnInfo.Builder.SetCatalogName | client/trino-jdbc/src/main/java/io/trino/jdbc/ColumnInfo.java:477-482 | overwrites the catalog name and nothing else |
| JdbcColumnInfo.Builder.Build | client/trino-jdbc/src/main/java/io/trino/jdbc/ColumnInfo.java:484-503 | succeeds exactly when no reference field is null, and then passes every field through unchanged |
| NumberOperators.RoundHalfUpSpec | core/trino-main/src/main/java/io/trino/type/NumberOperators.java:108 | HALF_UP rounding of `n / d` is within half a unit of the exact quotient, a tie goes away from zero, and the sign is kept |
| NumberOperators.HalfUpMagnitudeSpec | core/trino-main/src/main/java/io/trino/type/NumberOperators.java:108 | rounding a magnitude HALF_UP lands within half a unit and rounds a tie up |
| NumberOperators.RoundHalfUpNearest | core/trino-main/src/main/java/io/trino/type/NumberOperators.java:108 | no multiple of `d` is closer to `n` than the HALF_UP rounding |
| NumberOperators.ToIntegral | core/trino-main/src/main/java/io/trino/type/NumberOperators.java:108 | `setScale(0, HALF_UP)` is exact for a non-positive scale; otherwise it is within half a unit, a tie goes away from zero, and the sign is kept |
| NumberOperators.Precision | core/trino-main/src/main/java/io/trino/type/NumberOperators.java:74 | a decimal's precision is its unscaled value's digit count: the least `r >= 1` with `abs(unscaled) < 10^r` |
| NumberOperators.CastToTinyint | core/trino-main/src/main/java/io/trino/type/NumberOperators.java:104-117 | succeeds exactly when the HALF_UP integer is in [-128, 127] and returns it; otherwise NUMERIC_VALUE_OUT_OF_RANGE |
| NumberOperators.CastToSmallint | core/trino-main/src/main/java/io/trino/type/NumberOperators.java:121-134 | succeeds exactly when the HALF_UP integer is in [-32768, 32767] and returns it; otherwise NUMERIC_VALUE_OUT_OF_RANGE |
| NumberOperators.CastToInteger | core/trino-main/src/main/java/io/trino/type/NumberOperators.java:138-151 | succeeds exactly when the HALF_UP integer is in [-2^31, 2^31 - 1] and returns it; otherwise NUMERIC_VALUE_OUT_OF_RANGE |
| NumberOperators.CastToBigint | core/trino-main/src/main/java/io/trino/type/NumberOperators.java:155-164 | succeeds exactly when the HALF_UP integer fits 64 bits and returns it; otherwise NUMERIC_VALUE_OUT_OF_RANGE |
| NumberOperators.CastWidening | core/trino-main/src/main/java/io/trino/type/NumberOperators.java:104-164 | a value that fits a narrower integer type casts to each wider one with the same result |
| NumberOperators.TinyintBoundaries | core/trino-main/src/main/java/io/trino/type/NumberOperators.java:104-117 | 127.5 and -128.5 are out of range, while 127.4, -128.4, 2.5 and -2.5 cast to 127, -128, 3 and -3 |
| NumberOperators.QuotientFraction | core/trino-main/src/main/java/io/trino/type/NumberOperators.java:76 | the quotient scaled to the result scale is a fraction with a positive denominator |
| NumberOperators.Divide | core/trino-main/src/main/java/io/trino/type/NumberOperators.java:67-81 | fails with DIVISION_BY_ZERO exactly when the divisor is zero; otherwise the result has scale max(dividend scale + divisor precision + 1, 6) and is the exact quotient at that scale rounded HALF_UP: within half a unit, a tie away from zero |
| NumberOperators.Modulus | core/trino-main/src/main/java/io/trino/type/NumberOperators.java:83-93 | fails with DIVISION_BY_ZERO exactly when the divisor is zero; otherwise, on the common scale, the result is the remainder of division truncated toward zero: smaller in magnitude than the divisor and of the dividend's sign |
| NumberOperators.CastToVarchar | core/trino-main/src/main/java/io/trino/type/NumberOperators.java:180-191 | succeeds exactly when the rendered text has at most `x` characters and returns that text; otherwise INVALID_CAST_ARGUMENT |
| NumberOperators.CastToVarcharMonotonic | core/trino-main/src/main/java/io/trino/type/NumberOperators.java:187-190 | a value that fits `varchar(x)` fits every wider varchar with the same text |
| JavaNumbers.ToInt | core/trino-main/src/main/java/io/trino/type/NumberOperators.java:74 | Java's int narrowing: the result is an int, equal to the input when it fits, and congruent to it modulo 2^32 |
| JavaNumbers.TruncRemBounds | core/trino-main/src/main/java/io/trino/type/NumberOperators.java:88 | remainder truncated toward zero: the division identity holds, the remainder is smaller than the divisor in magnitude and has the dividend's sign |
| JavaNumbers.NumDigitsBounds | core/trino-main/src/main/java/io/trino/type/NumberOperators.java:74 | a number's digit count `k` satisfies `10^(k-1) <= n < 10^k` |
| JavaNumbers.NumDigitsOf | client/trino-jdbc/src/main/java/io/trino/jdbc/ColumnInfo.java:111 | a number between `10^(k-1)` and `10^k` has `k` digits |
| UuidOperators.CastFromVarbinaryToUuid | core/trino-main/src/main/java/io/trino/type/UuidOperators.java:78-86 | returns the input unchanged exactly when it has 16 bytes; otherwise INVALID_CAST_ARGUMENT |
| UuidOperators.CastFromUuidToVarbinary | core/trino-main/src/main/java/io/trino/type/UuidOperators.java:88-93 | the result has the UUID's length and bytes |
| UuidOperators.VarbinaryRoundTrip | core/trino-main/src/main/java/io/trino/type/UuidOperators.java:80-93 | 16 bytes cast to UUID and back are the same bytes |
| UuidOperators.UuidRoundTrip | core/trino-main/src/main/java/io/trino/type/UuidOperators.java:80-93 | a UUID cast to varbinary and back is the same UUID |
| UuidOperators.CastFromVarcharToUuid | core/trino-main/src/main/java/io/trino/type/UuidOperators.java:51-63 | succeeds exactly when the text parses and is 36 bytes long, returning the parsed UUID; otherwise INVALID_CAST_ARGUMENT, even for a text that parses |
| UuidOperators.CastFromUuidToVarchar | core/trino-main/src/main/java/io/trino/type/UuidOperators.java:68-76 | succeeds exactly when the rendered text has at most `x` bytes and returns it; otherwise INVALID_CAST_ARGUMENT |
| UuidOperators.CanonicalText | core/trino-main/src/main/java/io/trino/type/UuidOperators.java:70 | the canonical text is 36 bytes with dashes at 8, 13, 18 and 23 |
| UuidOperators.CanonicalRoundTrip | core/trino-main/src/main/java/io/trino/type/UuidOperators.java:54-70 | parsing a UUID's canonical text gives back the UUID |
| UuidOperators.UnhexHex | core/trino-main/src/main/java/io/trino/type/UuidOperators.java:54-70 | decoding the hex spelling of bytes gives back the bytes |
| UuidOperators.HexAppend | core/trino-main/src/main/java/io/trino/type/UuidOperators.java:70 | hex spelling distributes over concatenation |
| UuidOperators.CanonicalVarcharRoundTrip | core/trino-main/src/main/java/io/trino/type/UuidOperators.java:51-76 | with the canonical form, a UUID cast to `varchar(36)` and back is the same UUID |
| UuidOperators.CanonicalVarcharWidth | core/trino-main/src/main/java/io/trino/type/UuidOperators.java:68-76 | with the canonical form, the cast to `varchar(x)` succeeds exactly when `x >= 36` |
| PluginInstaller.NewInstalledFeatures | core/trino-main/src/main/java/io/trino/server/PluginInstaller.java:31-38 | succeeds exactly when no argument is null, reporting the first null one by name, and then keeps the arguments as given |
| PluginInstaller.InstalledFeatures.IsEmpty | core/trino-main/src/main/java/io/trino/server/PluginInstaller.java:40-43 | a record is empty exactly when no feature kind has a name listed |
| PluginInstaller.NoNamesIffEmpty | core/trino-main/src/main/java/io/trino/server/PluginInstaller.java:40-51 | a record registered no feature exactly when every kind's names list is empty |
| PluginInstaller.InstalledFeatures.Names | core/trino-main/src/main/java/io/trino/server/PluginInstaller.java:45-51 | a name is listed under a kind exactly when a feature of that kind carries it, and there are never more names than features |
| PluginInstaller.NamesOf | core/trino-main/src/main/java/io/trino/server/PluginInstaller.java:45-51 | filtering by kind never lists more names than there are features |
| PluginInstaller.NamesOfContains | core/trino-main/src/main/java/io/trino/server/PluginInstaller.java:45-51 | the names of a kind are exactly the names of the features of that kind |
| PluginInstaller.NamesOfMembership | core/trino-main/src/main/java/io/trino/server/PluginInstaller.java:45-51 | a name is listed under a kind exactly when a feature of that kind with that name was registered |
| PluginInstaller.NamesOfAppend | core/trino-main/src/main/java/io/trino/server/PluginInstaller.java:45-51 | the names of appended lists are the names of the first followed by those of the second, so insertion order is kept |
| PluginInstaller.NamesPartition | core/trino-main/src/main/java/io/trino/server/PluginInstaller.java:45-51 | summed over all kinds, the names lists hold exactly as many names as there are features: each feature is listed under exactly one kind |
| PluginInstaller.NameCountStep | core/trino-main/src/main/java/io/trino/server/PluginInstaller.java:45-51 | appending one feature adds one name for each occurrence of its kind among the kinds counted |
| PluginInstaller.CountOfDistinct | core/trino-main/src/main/java/io/trino/server/PluginInstaller.java:97-116 | in a list of distinct kinds, a kind occurs once if listed and never otherwise |
| PluginInstaller.NameCountEmpty | core/trino-main/src/main/java/io/trino/server/PluginInstaller.java:45-51 | no features list no names |
| PluginInstaller.Builder.constructor | core/trino-main/src/main/java/io/trino/server/PluginInstaller.java:58-67 | a new builder keeps the plugin class, has loading time 0 ns and no features |
| PluginInstaller.NewBuilder | core/trino-main/src/main/java/io/trino/server/PluginInstaller.java:53-67 | a null plugin class is rejected with NullPointerException; otherwise a fresh builder with loading time 0 ns and no features |
| PluginInstaller.Builder.WithFeature | core/trino-main/src/main/java/io/trino/server/PluginInstaller.java:69-73 | appends exactly one `(feature, name)` pair at the end; a null kind or name is rejected and changes nothing |
| PluginInstaller.Builder.WithLoadingTime | core/trino-main/src/main/java/io/trino/server/PluginInstaller.java:75-79 | overwrites the loading time |
| PluginInstaller.Builder.Build | core/trino-main/src/main/java/io/trino/server/PluginInstaller.java:81-84 | succeeds exactly when the loading time is not null, and the record holds the plugin class, the loading time and the features in append order |
| PluginInstaller.NewInstalledFeature | core/trino-main/src/main/java/io/trino/server/PluginInstaller.java:88-95 | succeeds exactly when neither the kind nor the name is null (the kind is checked first) and keeps both |
| PluginInstaller.Description | core/trino-main/src/main/java/io/trino/server/PluginInstaller.java:118-128 | every feature kind has a non-empty description |
| PluginInstaller.FeatureCatalogue | core/trino-main/src/main/java/io/trino/server/PluginInstaller.java:97-129 | the catalogue lists every feature kind exactly once, and distinct kinds have distinct descriptions |

## Left out

- The byte-level run-length and compression encoding of the present stream is not modelled. Its buffered and retained byte counts are opaque state of the stream. `PresentOutputStream.java` is not part of this model.
- `OrcMetadata.PositionListShape`: the byte-level part of a present checkpoint (the compressed block offset, the decompressed offset and the offset inside the byte run) comes from the run-length encoder and compressor, which are not modelled; the present stream takes it from an encoder parameter. Only the layout of the list and the bit offset are determined. That a boolean stream flushes one byte per eight booleans and records its bit offset inside the partial byte is an assumption about `BooleanOutputStream`, which is not part of this model.
- The present stream exists only once a null has been written, following ORC's convention of omitting the present stream of a column without nulls. This is an assumption about `PresentOutputStream`, which is not part of this model.
- The field writers are not modelled as column writers. Each one logs the calls it receives, and its outputs and sizes are a report chosen by its environment.
- `CompressedMetadataWriter.writeRowIndexes` is not modelled. The ROW_INDEX stream carries the row-group indexes themselves rather than their serialized bytes, and its length is not modelled.
- The `IOException` that `getIndexStreams` may propagate from the metadata writer is not modelled.
- `ColumnStatistics` is reduced to its non-null value count. Merging sums the counts.
- `RowBlock.getNullSuppressedRowFieldsFromBlock` is modelled as a filter that removes the null rows.
- The Java object sizes (`INSTANCE_SIZE` and a statistics entry's retained size) are constructor parameters.
- A block whose field count differs from the writer's field count is excluded by a precondition. The Java type of the column guarantees it.
- `OrcStructWriter.StructColumnWriter.WriteBlock`: `nonNullValueCount` is unbounded here, so the `int` wrap-around after 2^31 non-null values in one row group is not modelled.
- `OrcStructWriter.StructColumnWriter.GetBufferedBytes`: the `long` sums are unbounded here, so 64-bit overflow is not modelled. The same holds for `GetRetainedBytes`.
- `OrcStructWriter.StructColumnWriter.GetRetainedBytes`: every statistics entry is taken to retain the same number of bytes.
- The field writers must be distinct objects. The writer owns them exclusively.
- `JdbcColumnInfo.LongArgument`: the exception that `getLongLiteral` throws for an argument of another kind is taken to be `IllegalArgumentException`. `ClientTypeSignatureParameter.java` is not part of this model.
- `getColumnTypeName` is not modelled: it renders the type signature with `ClientTypeSignature.toString`, which is not part of this model. The getters of `ColumnInfo` are the fields of its datatype.
- The Java class of a type is modelled by its name.
- `ImmutableList.copyOf` rejects null elements. The elements of the modelled lists are never null.
- `TrinoNumber.from` is not modelled: `Divide` and `Modulus` give the `BigDecimal` before it, and a non-finite NUMBER is not modelled.
- `add`, `subtract`, `multiply` and `negate` are not modelled. Their result depends on the rounding in `TrinoNumber.from`.
- `castToReal` and `castToDouble` are floating point and are not modelled.
- `NumberOperators.Modulus`: the result is stated on the larger of the two operand scales. `BigDecimal.remainder` may report a different scale for the same value.
- `BigDecimal.toString` is a parameter of `CastToVarchar`. Only its length matters to the cast.
- `uuid()` draws a random UUID and is not modelled.
- The parse and render through `java.util.UUID`, and the conversion between Trino's and Java's byte order, are parameters of the varchar casts. The canonical form is given separately, as one instance of those parameters.
- `Duration` is held as whole nanoseconds.
- The plugin class is held as its name.
- `loadPlugins` and `installPlugin` are interface methods without a body in this file and are not modelled.
