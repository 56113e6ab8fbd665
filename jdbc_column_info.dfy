/**
 * JDBC column metadata: how the client driver turns a column's client type signature
 * into a `java.sql.Types` code, a Java class name, signedness, precision, scale and
 * display size, and the builder that collects a column's metadata.
 */
module JdbcColumnInfo {
  import opened Errors
  import opened JavaNumbers

  // The `java.sql.Types` codes the mapping produces.
  const BOOLEAN: int := 16
  const TINYINT: int := -6
  const SMALLINT: int := 5
  const INTEGER: int := 4
  const BIGINT: int := -5
  const REAL: int := 7
  const DOUBLE: int := 8
  const DECIMAL: int := 3
  const OTHER: int := 1111
  const VARCHAR: int := 12
  const CHAR: int := 1
  const VARBINARY: int := -3
  const DATE: int := 91
  const TIME: int := 92
  const TIME_WITH_TIMEZONE: int := 2013
  const TIMESTAMP: int := 93
  const TIMESTAMP_WITH_TIMEZONE: int := 2014
  const ARRAY: int := 2003
  const JAVA_OBJECT: int := 2000
  const NULL: int := 0

  // Display widths: the lengths of the rendering patterns, and room for a zone name.
  const VARBINARY_MAX: int := 1024 * 1024 * 1024
  const TIME_ZONE_MAX: int := 40
  const TIME_MAX: int := |"HH:mm:ss.SSS"|
  const TIME_WITH_TIME_ZONE_MAX: int := TIME_MAX + TIME_ZONE_MAX
  const TIMESTAMP_MAX: int := |"yyyy-MM-dd HH:mm:ss.SSS"|
  const TIMESTAMP_WITH_TIME_ZONE_MAX: int := TIMESTAMP_MAX + TIME_ZONE_MAX
  const DATE_MAX: int := |"yyyy-MM-dd"|

  /** A type as the server sends it: a raw name and its parameters. */
  datatype ClientTypeSignature = ClientTypeSignature(rawType: string, arguments: seq<ClientTypeSignatureParameter>)

  /** A type parameter of one of the four kinds TYPE, NAMED_TYPE, LONG and VARIABLE. */
  datatype ClientTypeSignatureParameter =
    | TypeParameter(typeSignature: ClientTypeSignature)
    | NamedTypeParameter(name: string, namedType: ClientTypeSignature)
    | LongParameter(longLiteral: int)
    | VariableParameter(variable: string)

  datatype Nullable = NO_NULLS | NULLABLE | UNKNOWN

  /** A JDBC type code and the name of the Java class its values are returned as. */
  datatype TypeInfo = TypeInfo(jdbcType: int, jdbcJavaClassName: string)

  /** The raw type names the mapping knows. */
  const STANDARD_TYPES: seq<string> :=
    ["boolean", "tinyint", "smallint", "integer", "bigint", "real", "double", "decimal", "number",
     "varchar", "char", "varbinary", "date", "time", "time with time zone", "timestamp",
     "timestamp with time zone", "array", "map", "row", "json", "ipaddress", "uuid", "unknown"]

  /**
   * The JDBC type and Java class of a client type, by its raw name alone. NULL is kept for
   * `unknown`; map, row, json, ipaddress, uuid and every unlisted type are JAVA_OBJECT; the
   * character types and the ones the driver returns as text are Strings.
   */
  function TypeInfoOf(t: ClientTypeSignature): (r: TypeInfo)
    ensures r.jdbcType == NULL <==> t.rawType == "unknown"
  {
    match t.rawType
    case "boolean" => TypeInfo(BOOLEAN, "java.lang.Boolean")
    case "tinyint" => TypeInfo(TINYINT, "java.lang.Byte")
    case "smallint" => TypeInfo(SMALLINT, "java.lang.Short")
    case "integer" => TypeInfo(INTEGER, "java.lang.Integer")
    case "bigint" => TypeInfo(BIGINT, "java.lang.Long")
    case "real" => TypeInfo(REAL, "java.lang.Float")
    case "double" => TypeInfo(DOUBLE, "java.lang.Double")
    case "decimal" => TypeInfo(DECIMAL, "java.math.BigDecimal")
    case "number" => TypeInfo(OTHER, "java.lang.Number")
    case "varchar" => TypeInfo(VARCHAR, "java.lang.String")
    case "char" => TypeInfo(CHAR, "java.lang.String")
    case "varbinary" => TypeInfo(VARBINARY, "[B")
    case "date" => TypeInfo(DATE, "java.sql.Date")
    case "time" => TypeInfo(TIME, "java.sql.Time")
    case "time with time zone" => TypeInfo(TIME_WITH_TIMEZONE, "java.sql.Time")
    case "timestamp" => TypeInfo(TIMESTAMP, "java.sql.Timestamp")
    case "timestamp with time zone" => TypeInfo(TIMESTAMP_WITH_TIMEZONE, "java.sql.Timestamp")
    case "array" => TypeInfo(ARRAY, "java.sql.Array")
    case "map" => TypeInfo(JAVA_OBJECT, "java.util.Map")
    case "row" => TypeInfo(JAVA_OBJECT, "io.trino.jdbc.Row")
    case "json" => TypeInfo(JAVA_OBJECT, "java.lang.String")
    case "ipaddress" => TypeInfo(JAVA_OBJECT, "java.lang.String")
    case "uuid" => TypeInfo(JAVA_OBJECT, "java.lang.String")
    case "unknown" => TypeInfo(NULL, "java.lang.Object")
    case _ => TypeInfo(JAVA_OBJECT, "java.lang.Object")
  }

  /** A type parameter's JDBC type: its type's, for a TYPE parameter; JAVA_OBJECT for every other kind. */
  function GetType(parameter: ClientTypeSignatureParameter): (r: int)
    ensures parameter.TypeParameter? ==> r == TypeInfoOf(parameter.typeSignature).jdbcType
    ensures !parameter.TypeParameter? ==> r == JAVA_OBJECT
  {
    match parameter
    case TypeParameter(signature) => TypeInfoOf(signature).jdbcType
    case _ => JAVA_OBJECT
  }

  function ParameterTypes(arguments: seq<ClientTypeSignatureParameter>): (r: seq<int>)
    ensures |r| == |arguments|
    ensures forall i :: 0 <= i < |arguments| ==> r[i] == GetType(arguments[i])
  {
    seq(|arguments|, i requires 0 <= i < |arguments| => GetType(arguments[i]))
  }

  /**
   * `getArguments().get(index).getLongLiteral().intValue()`: a missing argument is an
   * index error, an argument of another kind is rejected, and the long is narrowed to an int.
   */
  function LongArgument(t: ClientTypeSignature, index: nat): (r: Result<int>)
    ensures r.Ok? <==> index < |t.arguments| && t.arguments[index].LongParameter?
    ensures index >= |t.arguments| ==> r == Err(IndexOutOfBoundsException)
    ensures index < |t.arguments| && !t.arguments[index].LongParameter? ==> r == Err(IllegalArgumentException)
    ensures r.Ok? ==> IsInt(r.value) && r.value == ToInt(t.arguments[index].longLiteral)
  {
    if index >= |t.arguments| then Err(IndexOutOfBoundsException)
    else match t.arguments[index]
      case LongParameter(n) => Ok(ToInt(n))
      case _ => Err(IllegalArgumentException)
  }

  /** The metadata of one result-set column. The reference fields are never null. */
  datatype ColumnInfo = ColumnInfo(
    columnType: int,
    columnJavaClassName: string,
    columnParameterTypes: seq<int>,
    columnTypeSignature: ClientTypeSignature,
    nullable: Nullable,
    currency: bool,
    signed: bool,
    precision: int,
    scale: int,
    columnDisplaySize: int,
    columnLabel: string,
    columnName: string,
    tableName: string,
    schemaName: string,
    catalogName: string)

  /** The fields of a builder (and the arguments of the column constructor); `None` is a Java null. */
  datatype BuilderState = BuilderState(
    columnType: int,
    columnJavaClassName: Option<string>,
    columnParameterTypes: Option<seq<int>>,
    columnTypeSignature: Option<ClientTypeSignature>,
    nullable: Option<Nullable>,
    currency: bool,
    signed: bool,
    precision: int,
    scale: int,
    columnDisplaySize: int,
    columnLabel: Option<string>,
    columnName: Option<string>,
    tableName: Option<string>,
    schemaName: Option<string>,
    catalogName: Option<string>)

  /** A new builder: Java's default field values. */
  const INITIAL_STATE: BuilderState :=
    BuilderState(0, None, None, None, None, false, false, 0, 0, 0, None, None, None, None, None)

  /**
   * The column constructor: each reference argument is checked for null, in declaration
   * order, and the first null one is reported by name.
   */
  function NewColumnInfo(s: BuilderState): (r: Result<ColumnInfo>)
    ensures r.Ok? <==>
              && s.columnJavaClassName.Some? && s.columnParameterTypes.Some? && s.columnTypeSignature.Some?
              && s.nullable.Some? && s.columnLabel.Some? && s.columnName.Some?
              && s.tableName.Some? && s.schemaName.Some? && s.catalogName.Some?
    ensures s.columnJavaClassName.None? ==> r == Err(NullPointerException("columnJavaClassName is null"))
    ensures s.columnJavaClassName.Some? && s.columnParameterTypes.None? ==>
              r == Err(NullPointerException("columnParameterTypes is null"))
    ensures s.columnJavaClassName.Some? && s.columnParameterTypes.Some? && s.columnTypeSignature.None? ==>
              r == Err(NullPointerException("columnTypeSignature is null"))
    ensures s.columnJavaClassName.Some? && s.columnParameterTypes.Some? && s.columnTypeSignature.Some?
            && s.nullable.None? ==>
              r == Err(NullPointerException("nullable is null"))
    ensures s.columnJavaClassName.Some? && s.columnParameterTypes.Some? && s.columnTypeSignature.Some?
            && s.nullable.Some? && s.columnLabel.None? ==>
              r == Err(NullPointerException("columnLabel is null"))
    ensures s.columnJavaClassName.Some? && s.columnParameterTypes.Some? && s.columnTypeSignature.Some?
            && s.nullable.Some? && s.columnLabel.Some? && s.columnName.None? ==>
              r == Err(NullPointerException("columnName is null"))
    ensures s.columnJavaClassName.Some? && s.columnParameterTypes.Some? && s.columnTypeSignature.Some?
            && s.nullable.Some? && s.columnLabel.Some? && s.columnName.Some? && s.tableName.None? ==>
              r == Err(NullPointerException("tableName is null"))
    ensures s.columnJavaClassName.Some? && s.columnParameterTypes.Some? && s.columnTypeSignature.Some?
            && s.nullable.Some? && s.columnLabel.Some? && s.columnName.Some? && s.tableName.Some?
            && s.schemaName.None? ==>
              r == Err(NullPointerException("schemaName is null"))
    ensures s.columnJavaClassName.Some? && s.columnParameterTypes.Some? && s.columnTypeSignature.Some?
            && s.nullable.Some? && s.columnLabel.Some? && s.columnName.Some? && s.tableName.Some?
            && s.schemaName.Some? && s.catalogName.None? ==>
              r == Err(NullPointerException("catalogName is null"))
    ensures r.Ok? ==>
              && r.value.columnType == s.columnType
              && r.value.columnJavaClassName == s.columnJavaClassName.value
              && r.value.columnParameterTypes == s.columnParameterTypes.value
              && r.value.columnTypeSignature == s.columnTypeSignature.value
              && r.value.nullable == s.nullable.value
              && r.value.currency == s.currency
              && r.value.signed == s.signed
              && r.value.precision == s.precision
              && r.value.scale == s.scale
              && r.value.columnDisplaySize == s.columnDisplaySize
              && r.value.columnLabel == s.columnLabel.value
              && r.value.columnName == s.columnName.value
              && r.value.tableName == s.tableName.value
              && r.value.schemaName == s.schemaName.value
              && r.value.catalogName == s.catalogName.value
    ensures r.Err? ==> r.error.NullPointerException?
  {
    if s.columnJavaClassName.None? then Err(NullPointerException("columnJavaClassName is null"))
    else if s.columnParameterTypes.None? then Err(NullPointerException("columnParameterTypes is null"))
    else if s.columnTypeSignature.None? then Err(NullPointerException("columnTypeSignature is null"))
    else if s.nullable.None? then Err(NullPointerException("nullable is null"))
    else if s.columnLabel.None? then Err(NullPointerException("columnLabel is null"))
    else if s.columnName.None? then Err(NullPointerException("columnName is null"))
    else if s.tableName.None? then Err(NullPointerException("tableName is null"))
    else if s.schemaName.None? then Err(NullPointerException("schemaName is null"))
    else if s.catalogName.None? then Err(NullPointerException("catalogName is null"))
    else Ok(ColumnInfo(
      s.columnType, s.columnJavaClassName.value, s.columnParameterTypes.value, s.columnTypeSignature.value,
      s.nullable.value, s.currency, s.signed, s.precision, s.scale, s.columnDisplaySize,
      s.columnLabel.value, s.columnName.value, s.tableName.value, s.schemaName.value, s.catalogName.value))
  }

  /** The per-type attributes `setTypeInfo` writes after the type code, class and parameter types. */
  datatype Attributes = Attributes(signed: bool, precision: int, scale: int, columnDisplaySize: int)

  function AttributesOf(s: BuilderState): Attributes
  {
    Attributes(s.signed, s.precision, s.scale, s.columnDisplaySize)
  }

  /** The raw type names the attribute switch has a case for. */
  const SWITCHED_TYPES: seq<string> :=
    ["boolean", "bigint", "integer", "smallint", "tinyint", "real", "double", "char", "varchar",
     "varbinary", "time", "time with time zone", "timestamp", "timestamp with time zone", "date",
     "interval year to month", "interval day to second", "decimal"]

  /**
   * The switch on the raw type name. It fails exactly when a length, precision or scale
   * argument it reads is missing or not a long, and a failing read leaves the attributes
   * set before it in place; a type without a case keeps its attributes.
   */
  function TypeAttributes(a: Attributes, t: ClientTypeSignature): (r: (Attributes, Outcome))
    ensures r.1.Pass? <==>
              && (t.rawType in ["char", "varchar"] ==> LongArgument(t, 0).Ok?)
              && (t.rawType == "decimal" ==> LongArgument(t, 0).Ok? && LongArgument(t, 1).Ok?)
    ensures t.rawType !in SWITCHED_TYPES ==> r == (a, Pass)
  {
    match t.rawType
    case "boolean" => (a.(columnDisplaySize := 5), Pass)
    case "bigint" => (Attributes(true, 19, 0, 20), Pass)
    case "integer" => (Attributes(true, 10, 0, 11), Pass)
    case "smallint" => (Attributes(true, 5, 0, 6), Pass)
    case "tinyint" => (Attributes(true, 3, 0, 4), Pass)
    case "real" => (Attributes(true, 9, 0, 16), Pass)
    case "double" => (Attributes(true, 17, 0, 24), Pass)
    case "char" => LengthAttributes(a, t)
    case "varchar" => LengthAttributes(a, t)
    case "varbinary" => (Attributes(false, VARBINARY_MAX, 0, VARBINARY_MAX), Pass)
    case "time" => (Attributes(true, 3, 0, TIME_MAX), Pass)
    case "time with time zone" => (Attributes(true, 3, 0, TIME_WITH_TIME_ZONE_MAX), Pass)
    case "timestamp" => (Attributes(true, 3, 0, TIMESTAMP_MAX), Pass)
    case "timestamp with time zone" => (Attributes(true, 3, 0, TIMESTAMP_WITH_TIME_ZONE_MAX), Pass)
    case "date" => (a.(signed := true, scale := 0, columnDisplaySize := DATE_MAX), Pass)
    case "interval year to month" => (a.(columnDisplaySize := TIMESTAMP_MAX), Pass)
    case "interval day to second" => (a.(columnDisplaySize := TIMESTAMP_MAX), Pass)
    case "decimal" =>
      var signed := a.(signed := true);
      (match LongArgument(t, 0)
       case Err(e) => (signed, Fail(e))
       case Ok(p) =>
         // the display size leaves room for the sign and the decimal point, in int arithmetic
         var sized := signed.(columnDisplaySize := ToInt(p + 2), precision := p);
         (match LongArgument(t, 1)
          case Err(e) => (sized, Fail(e))
          case Ok(sc) => (sized.(scale := sc), Pass)))
    case _ => (a, Pass)
  }

  /** `char` and `varchar`: unsigned, scale 0, precision and display size the length argument. */
  function LengthAttributes(a: Attributes, t: ClientTypeSignature): (Attributes, Outcome)
  {
    var unsigned := a.(signed := false, scale := 0);
    match LongArgument(t, 0)
    case Err(e) => (unsigned, Fail(e))
    case Ok(n) => (unsigned.(precision := n, columnDisplaySize := n), Pass)
  }

  /** A builder state with its per-type attributes replaced. */
  function WithAttributes(s: BuilderState, a: Attributes): BuilderState
  {
    s.(signed := a.signed, precision := a.precision, scale := a.scale, columnDisplaySize := a.columnDisplaySize)
  }

  /** The builder state the per-type switch leaves behind, and whether it completes. */
  function TypeAttributesApplied(s: BuilderState, t: ClientTypeSignature): (BuilderState, Outcome)
  {
    var (a, r) := TypeAttributes(AttributesOf(s), t);
    (WithAttributes(s, a), r)
  }

  function LengthAttributesApplied(s: BuilderState, t: ClientTypeSignature): (BuilderState, Outcome)
  {
    var (a, r) := LengthAttributes(AttributesOf(s), t);
    (WithAttributes(s, a), r)
  }

  /** The builder state `setTypeInfo` leaves behind, and whether it completes. */
  function TypeInfoApplied(s: BuilderState, t: ClientTypeSignature): (BuilderState, Outcome)
  {
    var info := TypeInfoOf(t);
    TypeAttributesApplied(
      s.(columnType := info.jdbcType,
         columnJavaClassName := Some(info.jdbcJavaClassName),
         columnParameterTypes := Some(ParameterTypes(t.arguments))),
      t)
  }

  /** The mutable builder of column metadata; each setter overwrites one field. */
  class Builder {
    var columnType: int
    var columnJavaClassName: Option<string>
    var columnParameterTypes: Option<seq<int>>
    var columnTypeSignature: Option<ClientTypeSignature>
    var nullable: Option<Nullable>
    var currency: bool
    var signed: bool
    var precision: int
    var scale: int
    var columnDisplaySize: int
    var columnLabel: Option<string>
    var columnName: Option<string>
    var tableName: Option<string>
    var schemaName: Option<string>
    var catalogName: Option<string>

    function State(): BuilderState
      reads this
    {
      BuilderState(columnType, columnJavaClassName, columnParameterTypes, columnTypeSignature, nullable,
                   currency, signed, precision, scale, columnDisplaySize,
                   columnLabel, columnName, tableName, schemaName, catalogName)
    }

    constructor ()
      ensures State() == INITIAL_STATE
    {
      columnType, columnJavaClassName, columnParameterTypes, columnTypeSignature, nullable := 0, None, None, None, None;
      currency, signed, precision, scale, columnDisplaySize := false, false, 0, 0, 0;
      columnLabel, columnName, tableName, schemaName, catalogName := None, None, None, None, None;
    }

    method SetColumnType(columnType: int)
      modifies this`columnType
      ensures State() == old(State()).(columnType := columnType)
    {
      this.columnType := columnType;
    }

    method SetColumnJavaClassName(columnJavaClassName: Option<string>)
      modifies this`columnJavaClassName
      ensures State() == old(State()).(columnJavaClassName := columnJavaClassName)
    {
      this.columnJavaClassName := columnJavaClassName;
    }

    /** The one setter that checks its argument: a null list is rejected and nothing changes. */
    method SetColumnParameterTypes(columnParameterTypes: Option<seq<int>>) returns (r: Outcome)
      modifies this`columnParameterTypes
      ensures columnParameterTypes.None? ==>
                r == Fail(NullPointerException("columnParameterTypes is null")) && State() == old(State())
      ensures columnParameterTypes.Some? ==>
                r == Pass && State() == old(State()).(columnParameterTypes := columnParameterTypes)
    {
      if columnParameterTypes.None? {
        return Fail(NullPointerException("columnParameterTypes is null"));
      }
      this.columnParameterTypes := columnParameterTypes;
      return Pass;
    }

    method SetColumnTypeSignature(columnTypeSignature: Option<ClientTypeSignature>)
      modifies this`columnTypeSignature
      ensures State() == old(State()).(columnTypeSignature := columnTypeSignature)
    {
      this.columnTypeSignature := columnTypeSignature;
    }

    method SetNullable(nullable: Option<Nullable>)
      modifies this`nullable
      ensures State() == old(State()).(nullable := nullable)
    {
      this.nullable := nullable;
    }

    method SetCurrency(currency: bool)
      modifies this`currency
      ensures State() == old(State()).(currency := currency)
    {
      this.currency := currency;
    }

    method SetSigned(signed: bool)
      modifies this`signed
      ensures State() == old(State()).(signed := signed)
    {
      this.signed := signed;
    }

    method SetPrecision(precision: int)
      modifies this`precision
      ensures State() == old(State()).(precision := precision)
    {
      this.precision := precision;
    }

    method SetScale(scale: int)
      modifies this`scale
      ensures State() == old(State()).(scale := scale)
    {
      this.scale := scale;
    }

    method SetColumnDisplaySize(columnDisplaySize: int)
      modifies this`columnDisplaySize
      ensures State() == old(State()).(columnDisplaySize := columnDisplaySize)
    {
      this.columnDisplaySize := columnDisplaySize;
    }

    method SetColumnLabel(columnLabel: Option<string>)
      modifies this`columnLabel
      ensures State() == old(State()).(columnLabel := columnLabel)
    {
      this.columnLabel := columnLabel;
    }

    method SetColumnName(columnName: Option<string>)
      modifies this`columnName
      ensures State() == old(State()).(columnName := columnName)
    {
      this.columnName := columnName;
    }

    method SetTableName(tableName: Option<string>)
      modifies this`tableName
      ensures State() == old(State()).(tableName := tableName)
    {
      this.tableName := tableName;
    }

    method SetSchemaName(schemaName: Option<string>)
      modifies this`schemaName
      ensures State() == old(State()).(schemaName := schemaName)
    {
      this.schemaName := schemaName;
    }

    method SetCatalogName(catalogName: Option<string>)
      modifies this`catalogName
      ensures State() == old(State()).(catalogName := catalogName)
    {
      this.catalogName := catalogName;
    }

    /** The column with every builder field passed through, or the constructor's null error. */
    function Build(): (r: Result<ColumnInfo>)
      reads this
      ensures r.Ok? <==>
                && columnJavaClassName.Some? && columnParameterTypes.Some? && columnTypeSignature.Some? && nullable.Some?
                && columnLabel.Some? && columnName.Some? && tableName.Some? && schemaName.Some? && catalogName.Some?
      ensures r.Ok? ==>
                r.value == ColumnInfo(
                  columnType, columnJavaClassName.value, columnParameterTypes.value, columnTypeSignature.value,
                  nullable.value, currency, signed, precision, scale, columnDisplaySize,
                  columnLabel.value, columnName.value, tableName.value, schemaName.value, catalogName.value)
    {
      NewColumnInfo(State())
    }
  }

  /**
   * Writes a column's type code, Java class, parameter types and per-type attributes
   * into `builder`, through its setters.
   */
  method SetTypeInfo(builder: Builder, t: ClientTypeSignature) returns (r: Outcome)
    modifies builder
    ensures (builder.State(), r) == TypeInfoApplied(old(builder.State()), t)
  {
    var typeInfo := TypeInfoOf(t);
    builder.SetColumnType(typeInfo.jdbcType);
    builder.SetColumnJavaClassName(Some(typeInfo.jdbcJavaClassName));
    var parameterTypes: seq<int> := [];
    if |t.arguments| > 0 {
      for i := 0 to |t.arguments|
        invariant |parameterTypes| == i
        invariant forall k :: 0 <= k < i ==> parameterTypes[k] == GetType(t.arguments[k])
      {
        parameterTypes := parameterTypes + [GetType(t.arguments[i])];
      }
    }
    assert parameterTypes == ParameterTypes(t.arguments);
    var _ := builder.SetColumnParameterTypes(Some(parameterTypes));
    r := SetTypeAttributes(builder, t);
  }

  /** The switch on the raw type name that ends `setTypeInfo`. */
  method SetTypeAttributes(builder: Builder, t: ClientTypeSignature) returns (r: Outcome)
    modifies builder
    ensures (builder.State(), r) == TypeAttributesApplied(old(builder.State()), t)
  {
    r := Pass;
    match t.rawType
    case "boolean" =>
      builder.SetColumnDisplaySize(5);
    case "bigint" =>
      builder.SetSigned(true);
      builder.SetPrecision(19);
      builder.SetScale(0);
      builder.SetColumnDisplaySize(20);
    case "integer" =>
      builder.SetSigned(true);
      builder.SetPrecision(10);
      builder.SetScale(0);
      builder.SetColumnDisplaySize(11);
    case "smallint" =>
      builder.SetSigned(true);
      builder.SetPrecision(5);
      builder.SetScale(0);
      builder.SetColumnDisplaySize(6);
    case "tinyint" =>
      builder.SetSigned(true);
      builder.SetPrecision(3);
      builder.SetScale(0);
      builder.SetColumnDisplaySize(4);
    case "real" =>
      builder.SetSigned(true);
      builder.SetPrecision(9);
      builder.SetScale(0);
      builder.SetColumnDisplaySize(16);
    case "double" =>
      builder.SetSigned(true);
      builder.SetPrecision(17);
      builder.SetScale(0);
      builder.SetColumnDisplaySize(24);
    case "char" =>
      r := SetLengthAttributes(builder, t);
      return;
    case "varchar" =>
      r := SetLengthAttributes(builder, t);
      return;
    case "varbinary" =>
      builder.SetSigned(false);
      builder.SetScale(0);
      builder.SetPrecision(VARBINARY_MAX);
      builder.SetColumnDisplaySize(VARBINARY_MAX);
    case "time" =>
      builder.SetSigned(true);
      builder.SetPrecision(3);
      builder.SetScale(0);
      builder.SetColumnDisplaySize(TIME_MAX);
    case "time with time zone" =>
      builder.SetSigned(true);
      builder.SetPrecision(3);
      builder.SetScale(0);
      builder.SetColumnDisplaySize(TIME_WITH_TIME_ZONE_MAX);
    case "timestamp" =>
      builder.SetSigned(true);
      builder.SetPrecision(3);
      builder.SetScale(0);
      builder.SetColumnDisplaySize(TIMESTAMP_MAX);
    case "timestamp with time zone" =>
      builder.SetSigned(true);
      builder.SetPrecision(3);
      builder.SetScale(0);
      builder.SetColumnDisplaySize(TIMESTAMP_WITH_TIME_ZONE_MAX);
    case "date" =>
      builder.SetSigned(true);
      builder.SetScale(0);
      builder.SetColumnDisplaySize(DATE_MAX);
    case "interval year to month" =>
      builder.SetColumnDisplaySize(TIMESTAMP_MAX);
    case "interval day to second" =>
      builder.SetColumnDisplaySize(TIMESTAMP_MAX);
    case "decimal" =>
      builder.SetSigned(true);
      var p := LongArgument(t, 0);
      if p.Err? {
        return Fail(p.error);
      }
      builder.SetColumnDisplaySize(ToInt(p.value + 2));
      builder.SetPrecision(p.value);
      var sc := LongArgument(t, 1);
      if sc.Err? {
        return Fail(sc.error);
      }
      builder.SetScale(sc.value);
    case _ =>
  }

  method SetLengthAttributes(builder: Builder, t: ClientTypeSignature) returns (r: Outcome)
    modifies builder
    ensures (builder.State(), r) == LengthAttributesApplied(old(builder.State()), t)
  {
    builder.SetSigned(false);
    builder.SetScale(0);
    var n := LongArgument(t, 0);
    if n.Err? {
      return Fail(n.error);
    }
    builder.SetPrecision(n.value);
    builder.SetColumnDisplaySize(n.value);
    return Pass;
  }

  /** `setTypeInfo` writes the type fields only: signature, nullability, currency and the names are untouched. */
  lemma SetTypeInfoFrame(s: BuilderState, t: ClientTypeSignature)
    ensures var s' := TypeInfoApplied(s, t).0;
      && s'.columnTypeSignature == s.columnTypeSignature
      && s'.nullable == s.nullable
      && s'.currency == s.currency
      && s'.columnLabel == s.columnLabel
      && s'.columnName == s.columnName
      && s'.tableName == s.tableName
      && s'.schemaName == s.schemaName
      && s'.catalogName == s.catalogName
  {
  }

  /** The type code, class and parameter types are written before anything can fail. */
  lemma SetTypeInfoTypeFields(s: BuilderState, t: ClientTypeSignature)
    ensures var s' := TypeInfoApplied(s, t).0;
      && s'.columnType == TypeInfoOf(t).jdbcType
      && s'.columnJavaClassName == Some(TypeInfoOf(t).jdbcJavaClassName)
      && s'.columnParameterTypes.Some?
      && |s'.columnParameterTypes.value| == |t.arguments|
      && forall i :: 0 <= i < |t.arguments| ==>
           s'.columnParameterTypes.value[i] ==
             if t.arguments[i].TypeParameter? then TypeInfoOf(t.arguments[i].typeSignature).jdbcType else JAVA_OBJECT
  {
  }

  /** Only `char`, `varchar` and `decimal` read type arguments, so only they can fail, and only on an argument. */
  lemma SetTypeInfoFailures(s: BuilderState, t: ClientTypeSignature)
    ensures var r := TypeInfoApplied(s, t).1;
      r.Fail? ==>
        && t.rawType in ["char", "varchar", "decimal"]
        && (r.error == IndexOutOfBoundsException || r.error == IllegalArgumentException)
  {
  }

  /** Only `unknown` is reported as the JDBC NULL type. */
  lemma NullTypeIsUnknown(t: ClientTypeSignature)
    ensures TypeInfoOf(t).jdbcType == NULL <==> t.rawType == "unknown"
    ensures t.rawType == "unknown" ==> TypeInfoOf(t).jdbcJavaClassName == "java.lang.Object"
  {
  }

  /**
   * The JAVA_OBJECT types are exactly map, row, json, ipaddress, uuid and the unlisted ones;
   * the types returned as Strings are exactly the character types and json, ipaddress and uuid.
   */
  lemma TypeInfoClasses(t: ClientTypeSignature)
    ensures TypeInfoOf(t).jdbcType == JAVA_OBJECT <==>
              t.rawType in ["map", "row", "json", "ipaddress", "uuid"] || t.rawType !in STANDARD_TYPES
    ensures TypeInfoOf(t).jdbcJavaClassName == "java.lang.String" <==>
              t.rawType in ["varchar", "char", "json", "ipaddress", "uuid"]
  {
  }

  /** A raw type the mapping does not list is a JAVA_OBJECT returned as a plain Object. */
  lemma UnlistedTypeInfo(t: ClientTypeSignature)
    requires t.rawType !in STANDARD_TYPES
    ensures TypeInfoOf(t) == TypeInfo(JAVA_OBJECT, "java.lang.Object")
  {
  }

  /** `number` is OTHER, returned as a Number, and has no attributes of its own: a new builder's display size stays 0. */
  lemma NumberTypeInfo(s: BuilderState, t: ClientTypeSignature)
    requires t.rawType == "number"
    ensures var (s', r) := TypeInfoApplied(s, t);
      && r == Pass
      && s'.columnType == OTHER && s'.columnJavaClassName == Some("java.lang.Number")
      && s'.signed == s.signed && s'.precision == s.precision && s'.scale == s.scale
      && s'.columnDisplaySize == s.columnDisplaySize
    ensures s == INITIAL_STATE ==> TypeInfoApplied(s, t).0.columnDisplaySize == 0
  {
  }

  /** The largest value of an exact integer type. */
  function ExactIntegerMax(rawType: string): int
  {
    match rawType
    case "bigint" => LONG_MAX
    case "integer" => INT_MAX
    case "smallint" => SHORT_MAX
    case _ => BYTE_MAX
  }

  /**
   * The exact integer types are signed with scale 0; their precision is the number of
   * digits of the type's largest value, and their display size adds one for the sign.
   */
  lemma ExactIntegerAttributes(s: BuilderState, t: ClientTypeSignature)
    requires t.rawType in ["bigint", "integer", "smallint", "tinyint"]
    ensures var (s', r) := TypeInfoApplied(s, t);
      && r == Pass
      && s'.signed && s'.scale == 0
      && s'.precision == NumDigits(ExactIntegerMax(t.rawType))
      && s'.columnDisplaySize == s'.precision + 1
  {
    Pow10Add(6, 3);
    Pow10Add(6, 6);
    Pow10Add(6, 12);
    NumDigitsOf(LONG_MAX, 19);
    NumDigitsOf(INT_MAX, 10);
    NumDigitsOf(SHORT_MAX, 5);
    NumDigitsOf(BYTE_MAX, 3);
  }

  /** `char(n)` and `varchar(n)` are unsigned with scale 0, and precision and display size are both `n`. */
  lemma LengthTypeAttributes(s: BuilderState, t: ClientTypeSignature, n: int)
    requires t.rawType == "char" || t.rawType == "varchar"
    requires |t.arguments| > 0 && t.arguments[0] == LongParameter(n) && IsInt(n)
    ensures var (s', r) := TypeInfoApplied(s, t);
      && r == Pass
      && !s'.signed && s'.scale == 0
      && s'.precision == n && s'.columnDisplaySize == n
  {
  }

  /** Without a length argument, `char` and `varchar` fail after setting the sign and the scale. */
  lemma LengthTypeWithoutArgument(s: BuilderState, t: ClientTypeSignature)
    requires t.rawType == "char" || t.rawType == "varchar"
    requires |t.arguments| == 0
    ensures var (s', r) := TypeInfoApplied(s, t);
      && r == Fail(IndexOutOfBoundsException)
      && !s'.signed && s'.scale == 0
      && s'.precision == s.precision && s'.columnDisplaySize == s.columnDisplaySize
  {
  }

  /** `decimal(p, s)` is signed with precision `p`, scale `s`, and display size `p + 2` for the sign and the point. */
  lemma DecimalAttributes(s: BuilderState, t: ClientTypeSignature, p: int, sc: int)
    requires t.rawType == "decimal"
    requires |t.arguments| >= 2 && t.arguments[0] == LongParameter(p) && t.arguments[1] == LongParameter(sc)
    requires IsInt(p) && p + 2 <= INT_MAX && IsInt(sc)
    ensures var (s', r) := TypeInfoApplied(s, t);
      && r == Pass
      && s'.signed
      && s'.precision == p && s'.scale == sc && s'.columnDisplaySize == p + 2
  {
  }

  /** The time-like display sizes are the lengths of their rendering patterns, plus room for a zone name. */
  lemma TemporalDisplaySizes(s: BuilderState, t: ClientTypeSignature)
    ensures var s' := TypeInfoApplied(s, t).0;
      && (t.rawType == "time" ==> s'.columnDisplaySize == 12 && s'.precision == 3)
      && (t.rawType == "time with time zone" ==> s'.columnDisplaySize == 12 + 40 && s'.precision == 3)
      && (t.rawType == "timestamp" ==> s'.columnDisplaySize == 23 && s'.precision == 3)
      && (t.rawType == "timestamp with time zone" ==> s'.columnDisplaySize == 23 + 40 && s'.precision == 3)
      && (t.rawType == "date" ==> s'.columnDisplaySize == 10 && s'.precision == s.precision && s'.signed && s'.scale == 0)
  {
  }
}
