/**
 * The name-level mappings of `OpenSearchTypeFactory` between OpenSearch expression
 * types (`ExprCoreType` and the extended OpenSearch data types) and Calcite's
 * relational types (`SqlTypeName`, user-defined date/time types, arrays, maps, records).
 */
module OpenSearchTypeFactory {
  import opened Wrappers
  import opened Text

  /** The core expression types of the query engine. */
  datatype ExprCoreType =
    | UNKNOWN | UNDEFINED | BYTE | SHORT | INTEGER | LONG | FLOAT | DOUBLE | STRING | BOOLEAN
    | DATE | TIME | TIMESTAMP | INTERVAL | IP | STRUCT | ARRAY

  /**
   * An expression type: either a core type, or an extended (OpenSearch-specific) type that
   * carries its own type name, its legacy type name, and, when it is an alias of another
   * field, the type of the original field (`getOriginalPath().isPresent()`).
   */
  datatype ExprType =
    | Core(core: ExprCoreType)
    | Extended(typeName: string, legacyTypeName: string, originalExprType: Option<ExprType>)

  /** Calcite's SQL type names. */
  datatype SqlTypeName =
    | BOOLEAN | TINYINT | SMALLINT | INTEGER | BIGINT | DECIMAL | FLOAT | REAL | DOUBLE
    | DATE | TIME | TIME_WITH_LOCAL_TIME_ZONE | TIME_TZ
    | TIMESTAMP | TIMESTAMP_WITH_LOCAL_TIME_ZONE | TIMESTAMP_TZ
    | INTERVAL_YEAR | INTERVAL_YEAR_MONTH | INTERVAL_MONTH | INTERVAL_DAY | INTERVAL_DAY_HOUR
    | INTERVAL_DAY_MINUTE | INTERVAL_DAY_SECOND | INTERVAL_HOUR | INTERVAL_HOUR_MINUTE
    | INTERVAL_HOUR_SECOND | INTERVAL_MINUTE | INTERVAL_MINUTE_SECOND | INTERVAL_SECOND
    | CHAR | VARCHAR | BINARY | VARBINARY | NULL | UNKNOWN | ANY | SYMBOL | MULTISET | ARRAY
    | MAP | DISTINCT | STRUCTURED | ROW | OTHER | CURSOR | COLUMN_LIST | DYNAMIC_STAR
    | GEOMETRY | MEASURE | FUNCTION | SARG | UUID | VARIANT

  /** The user-defined relational types for dates and times. */
  datatype ExprUDT = EXPR_DATE | EXPR_TIME | EXPR_TIMESTAMP

  /** The core type each user-defined type stands for. */
  function UdtExprCoreType(u: ExprUDT): ExprCoreType {
    match u
    case EXPR_DATE => ExprCoreType.DATE
    case EXPR_TIME => ExprCoreType.TIME
    case EXPR_TIMESTAMP => ExprCoreType.TIMESTAMP
  }

  /**
   * A relational data type, reduced to what the mappings look at: its type name, its
   * nullability and its components. `ExprUdtType` is an `ExprRelDataType`; an array built by
   * `createArrayType` is never nullable itself.
   */
  datatype RelType =
    | BasicSqlType(sqlTypeName: SqlTypeName, nullable: bool)
    | ExprUdtType(udt: ExprUDT, nullable: bool)
    | ArraySqlType(component: RelType, nullable: bool)
    | MapSqlType(keyType: RelType, valueType: RelType, nullable: bool)
    | RecordType(fieldNames: seq<string>, fieldTypes: seq<RelType>, nullable: bool)

  /** The `SqlTypeName` of a relational type that is not a user-defined type. */
  function SqlTypeNameOf(t: RelType): SqlTypeName
    requires !t.ExprUdtType?
  {
    match t
    case BasicSqlType(n, _) => n
    case ArraySqlType(_, _) => SqlTypeName.ARRAY
    case MapSqlType(_, _, _) => SqlTypeName.MAP
    case RecordType(_, _, _) => SqlTypeName.ROW
  }

  /**
   * The two `IllegalArgumentException`s: "Unsupported conversion for OpenSearch Data type: "
   * followed by a type name, and "Unsupported conversion for Relational Data type: " followed
   * by a SQL type name.
   */
  datatype TypeError =
    | UnsupportedOpenSearchType(typeName: string)
    | UnsupportedRelationalType(sqlTypeName: SqlTypeName)

  /** `ExprCoreType.typeName()`: the constant's name. */
  function CoreTypeName(t: ExprCoreType): string {
    match t
    case UNKNOWN => "UNKNOWN"
    case UNDEFINED => "UNDEFINED"
    case BYTE => "BYTE"
    case SHORT => "SHORT"
    case INTEGER => "INTEGER"
    case LONG => "LONG"
    case FLOAT => "FLOAT"
    case DOUBLE => "DOUBLE"
    case STRING => "STRING"
    case BOOLEAN => "BOOLEAN"
    case DATE => "DATE"
    case TIME => "TIME"
    case TIMESTAMP => "TIMESTAMP"
    case INTERVAL => "INTERVAL"
    case IP => "IP"
    case STRUCT => "STRUCT"
    case ARRAY => "ARRAY"
  }

  function TypeName(t: ExprType): string {
    match t
    case Core(c) => CoreTypeName(c)
    case Extended(n, _, _) => n
  }

  function UnsupportedExprType(t: ExprType): TypeError {
    UnsupportedOpenSearchType(TypeName(t))
  }

  /** The core types that have a relational counterpart. */
  const ConvertibleCoreTypes: set<ExprCoreType> :=
    {ExprCoreType.UNDEFINED, ExprCoreType.BYTE, ExprCoreType.SHORT, ExprCoreType.INTEGER,
     ExprCoreType.LONG, ExprCoreType.FLOAT, ExprCoreType.DOUBLE, ExprCoreType.IP,
     ExprCoreType.STRING, ExprCoreType.BOOLEAN, ExprCoreType.DATE, ExprCoreType.TIME,
     ExprCoreType.TIMESTAMP, ExprCoreType.ARRAY, ExprCoreType.STRUCT}

  /** The legacy names an extended type is recognised by, case-folded. */
  const LegacyNames: set<string> := {"binary", "timestamp", "date", "time", "geo_point", "text", "ip"}

  /** The legacy names an extended type is recognised by, ignoring case. */
  predicate RecognisedLegacyName(name: string) {
    Fold(name) in LegacyNames
  }

  // Each `equalsIgnoreCase` test on a legacy name is a comparison of its folded form with one
  // of `LegacyNames`.

  lemma LegacyBinaryTest(name: string)
    ensures EqualsIgnoreCase(name, "binary") <==> Fold(name) == "binary"
  {
    EqualsIgnoreCaseFolded(name, "binary");
  }

  lemma LegacyTimestampTest(name: string)
    ensures EqualsIgnoreCase(name, "timestamp") <==> Fold(name) == "timestamp"
  {
    EqualsIgnoreCaseFolded(name, "timestamp");
  }

  lemma LegacyDateTest(name: string)
    ensures EqualsIgnoreCase(name, "date") <==> Fold(name) == "date"
  {
    EqualsIgnoreCaseFolded(name, "date");
  }

  lemma LegacyTimeTest(name: string)
    ensures EqualsIgnoreCase(name, "time") <==> Fold(name) == "time"
  {
    EqualsIgnoreCaseFolded(name, "time");
  }

  lemma LegacyGeoPointTest(name: string)
    ensures EqualsIgnoreCase(name, "geo_point") <==> Fold(name) == "geo_point"
  {
    EqualsIgnoreCaseFolded(name, "geo_point");
  }

  lemma LegacyTextTest(name: string)
    ensures EqualsIgnoreCase(name, "text") <==> Fold(name) == "text"
  {
    EqualsIgnoreCaseFolded(name, "text");
  }

  lemma LegacyIpTest(name: string)
    ensures EqualsIgnoreCase(name, "ip") <==> Fold(name) == "ip"
  {
    EqualsIgnoreCaseFolded(name, "ip");
  }

  lemma UpperCaseNames()
    ensures Upper("BINARY") == "BINARY" && Upper("GEO_POINT") == "GEO_POINT"
  {
    UpperOfUpperCase("BINARY");
    UpperOfUpperCase("GEO_POINT");
  }

  /** The relational type of an extended type with a recognised, case-folded legacy name. */
  function LegacyRelType(folded: string, nullable: bool): (r: Option<RelType>)
    ensures r.Some? <==> folded in LegacyNames
    ensures r.Some? ==> !r.value.ArraySqlType? && r.value.nullable == nullable
  {
    match folded
    case "binary" => Some(BasicSqlType(SqlTypeName.BINARY, nullable))
    case "timestamp" => Some(ExprUdtType(EXPR_TIMESTAMP, nullable))
    case "date" => Some(ExprUdtType(EXPR_DATE, nullable))
    case "time" => Some(ExprUdtType(EXPR_TIME, nullable))
    case "geo_point" => Some(BasicSqlType(SqlTypeName.GEOMETRY, nullable))
    case "text" => Some(BasicSqlType(SqlTypeName.VARCHAR, nullable))
    case "ip" => Some(BasicSqlType(SqlTypeName.VARCHAR, nullable))
    case _ => None
  }

  /** `convertExprTypeToRelDataType(fieldType, nullable)`. */
  function ConvertExprTypeToRelDataType(fieldType: ExprType, nullable: bool): (r: Result<RelType, TypeError>)
    ensures fieldType.Core? ==> (r.Success? <==> fieldType.core in ConvertibleCoreTypes)
    ensures fieldType.Core? && r.Failure? ==> r.error == UnsupportedExprType(fieldType)
    ensures fieldType.Extended? && RecognisedLegacyName(fieldType.legacyTypeName) ==> r.Success?
    ensures (fieldType.Extended? && !RecognisedLegacyName(fieldType.legacyTypeName)
              && fieldType.originalExprType.None?) ==> r == Failure(UnsupportedExprType(fieldType))
    // the requested nullability is kept, except by arrays, which pass it to their elements
    ensures r.Success? && !r.value.ArraySqlType? ==> r.value.nullable == nullable
    ensures r.Success? && r.value.ArraySqlType? ==>
              !r.value.nullable && r.value.component == BasicSqlType(SqlTypeName.ANY, nullable)
  {
    match fieldType
    case Core(t) => ConvertCoreType(t, nullable)
    case Extended(_, legacy, original) =>
      var known := LegacyRelType(Fold(legacy), nullable);
      if known.Some? then Success(known.value)
      else if original.Some? then ConvertExprTypeToRelDataType(original.value, nullable)
      else Failure(UnsupportedExprType(fieldType))
  }

  /** The `switch` over core types inside `convertExprTypeToRelDataType`. */
  function ConvertCoreType(t: ExprCoreType, nullable: bool): Result<RelType, TypeError> {
    match t
    case UNDEFINED => Success(BasicSqlType(SqlTypeName.NULL, nullable))
    case BYTE => Success(BasicSqlType(SqlTypeName.TINYINT, nullable))
    case SHORT => Success(BasicSqlType(SqlTypeName.SMALLINT, nullable))
    case INTEGER => Success(BasicSqlType(SqlTypeName.INTEGER, nullable))
    case LONG => Success(BasicSqlType(SqlTypeName.BIGINT, nullable))
    case FLOAT => Success(BasicSqlType(SqlTypeName.REAL, nullable))
    case DOUBLE => Success(BasicSqlType(SqlTypeName.DOUBLE, nullable))
    case IP => Success(BasicSqlType(SqlTypeName.VARCHAR, nullable))
    case STRING => Success(BasicSqlType(SqlTypeName.VARCHAR, nullable))
    case BOOLEAN => Success(BasicSqlType(SqlTypeName.BOOLEAN, nullable))
    case DATE => Success(ExprUdtType(EXPR_DATE, nullable))
    case TIME => Success(ExprUdtType(EXPR_TIME, nullable))
    case TIMESTAMP => Success(ExprUdtType(EXPR_TIMESTAMP, nullable))
    case ARRAY => Success(ArraySqlType(BasicSqlType(SqlTypeName.ANY, nullable), false))
    case STRUCT =>
      Success(MapSqlType(BasicSqlType(SqlTypeName.VARCHAR, false), BasicSqlType(SqlTypeName.BINARY, false), nullable))
    case _ => Failure(UnsupportedExprType(Core(t)))
  }

  /** The SQL type names that have no expression type. */
  const UnmappedSqlTypeNames: set<SqlTypeName> :=
    {SqlTypeName.DECIMAL, SqlTypeName.BINARY, SqlTypeName.VARBINARY, SqlTypeName.UNKNOWN,
     SqlTypeName.ANY, SqlTypeName.SYMBOL, SqlTypeName.MULTISET, SqlTypeName.DISTINCT,
     SqlTypeName.STRUCTURED, SqlTypeName.ROW, SqlTypeName.OTHER, SqlTypeName.CURSOR,
     SqlTypeName.COLUMN_LIST, SqlTypeName.DYNAMIC_STAR, SqlTypeName.GEOMETRY,
     SqlTypeName.MEASURE, SqlTypeName.FUNCTION, SqlTypeName.SARG, SqlTypeName.UUID,
     SqlTypeName.VARIANT}

  /** `convertSqlTypeNameToExprType`: total; every unlisted name becomes UNKNOWN. */
  function ConvertSqlTypeNameToExprType(n: SqlTypeName): (r: ExprCoreType)
    ensures r == ExprCoreType.UNKNOWN <==> n in UnmappedSqlTypeNames
    ensures r != ExprCoreType.IP
  {
    match n
    case TINYINT => ExprCoreType.BYTE
    case SMALLINT => ExprCoreType.SHORT
    case INTEGER => ExprCoreType.INTEGER
    case BIGINT => ExprCoreType.LONG
    case FLOAT | REAL => ExprCoreType.FLOAT
    case DOUBLE => ExprCoreType.DOUBLE
    case CHAR | VARCHAR => ExprCoreType.STRING
    case BOOLEAN => ExprCoreType.BOOLEAN
    case DATE => ExprCoreType.DATE
    case TIME | TIME_TZ | TIME_WITH_LOCAL_TIME_ZONE => ExprCoreType.TIME
    case TIMESTAMP | TIMESTAMP_WITH_LOCAL_TIME_ZONE | TIMESTAMP_TZ => ExprCoreType.TIMESTAMP
    case INTERVAL_YEAR | INTERVAL_YEAR_MONTH | INTERVAL_MONTH | INTERVAL_DAY | INTERVAL_DAY_HOUR
       | INTERVAL_DAY_MINUTE | INTERVAL_DAY_SECOND | INTERVAL_HOUR | INTERVAL_HOUR_MINUTE
       | INTERVAL_HOUR_SECOND | INTERVAL_MINUTE | INTERVAL_MINUTE_SECOND | INTERVAL_SECOND =>
      ExprCoreType.INTERVAL
    case ARRAY => ExprCoreType.ARRAY
    case MAP => ExprCoreType.STRUCT
    case NULL => ExprCoreType.UNDEFINED
    case _ => ExprCoreType.UNKNOWN
  }

  datatype QueryType = SQL | PPL

  /**
   * The type-naming tables the source consults but that are not part of this model:
   * `ExprType.legacyTypeName()` and the PPL language specification's `typeName`.
   */
  datatype TypeNaming = TypeNaming(legacyTypeName: ExprType -> string, pplTypeName: ExprType -> string)

  /** `getLegacyTypeName(relDataType, queryType)`. */
  function GetLegacyTypeName(t: RelType, queryType: QueryType, naming: TypeNaming): (r: string)
    ensures t.ExprUdtType? ==> r == naming.legacyTypeName(Core(UdtExprCoreType(t.udt)))
    ensures !t.ExprUdtType? && SqlTypeNameOf(t) in {SqlTypeName.BINARY, SqlTypeName.VARBINARY} ==> r == "BINARY"
    ensures !t.ExprUdtType? && SqlTypeNameOf(t) == SqlTypeName.GEOMETRY ==> r == "GEO_POINT"
    // every other name is the upper-cased PPL name (for PPL) or legacy name of the converted type
    ensures !t.ExprUdtType? && SqlTypeNameOf(t) !in {SqlTypeName.BINARY, SqlTypeName.VARBINARY, SqlTypeName.GEOMETRY} ==>
              var e := Core(ConvertSqlTypeNameToExprType(SqlTypeNameOf(t)));
              r == Upper(if queryType == PPL then naming.pplTypeName(e) else naming.legacyTypeName(e))
    ensures !t.ExprUdtType? ==> Upper(r) == r
  {
    match t
    case ExprUdtType(u, _) => naming.legacyTypeName(Core(UdtExprCoreType(u)))
    case _ =>
      var n := SqlTypeNameOf(t);
      if n == SqlTypeName.BINARY || n == SqlTypeName.VARBINARY then UpperCaseNames(); "BINARY"
      else if n == SqlTypeName.GEOMETRY then UpperCaseNames(); "GEO_POINT"
      else
        var e := Core(ConvertSqlTypeNameToExprType(n));
        var name := if queryType == PPL then naming.pplTypeName(e) else naming.legacyTypeName(e);
        UpperIdempotent(name);
        Upper(name)
  }

  /** `convertRelDataTypeToExprType`: fails rather than answer UNKNOWN. */
  function ConvertRelDataTypeToExprType(t: RelType): (r: Result<ExprType, TypeError>)
    ensures r.Success? ==> r.value.Core? && r.value.core != ExprCoreType.UNKNOWN
    ensures t.ExprUdtType? ==> r == Success(Core(UdtExprCoreType(t.udt)))
    ensures !t.ExprUdtType? ==>
              (r.Failure? <==> SqlTypeNameOf(t) in UnmappedSqlTypeNames)
    ensures r.Failure? ==> r.error == UnsupportedRelationalType(SqlTypeNameOf(t))
    ensures !t.ExprUdtType? && r.Success? ==> r.value == Core(ConvertSqlTypeNameToExprType(SqlTypeNameOf(t)))
  {
    match t
    case ExprUdtType(u, _) => Success(Core(UdtExprCoreType(u)))
    case _ =>
      var e := ConvertSqlTypeNameToExprType(SqlTypeNameOf(t));
      if e == ExprCoreType.UNKNOWN then
        Failure(UnsupportedRelationalType(SqlTypeNameOf(t)))
      else Success(Core(e))
  }

  /** The SQL type each scalar core type converts to; IP and STRING share VARCHAR. */
  lemma CoreScalarTypes(nullable: bool)
    ensures ConvertExprTypeToRelDataType(Core(ExprCoreType.UNDEFINED), nullable) == Success(BasicSqlType(SqlTypeName.NULL, nullable))
    ensures ConvertExprTypeToRelDataType(Core(ExprCoreType.BYTE), nullable) == Success(BasicSqlType(SqlTypeName.TINYINT, nullable))
    ensures ConvertExprTypeToRelDataType(Core(ExprCoreType.SHORT), nullable) == Success(BasicSqlType(SqlTypeName.SMALLINT, nullable))
    ensures ConvertExprTypeToRelDataType(Core(ExprCoreType.INTEGER), nullable) == Success(BasicSqlType(SqlTypeName.INTEGER, nullable))
    ensures ConvertExprTypeToRelDataType(Core(ExprCoreType.LONG), nullable) == Success(BasicSqlType(SqlTypeName.BIGINT, nullable))
    ensures ConvertExprTypeToRelDataType(Core(ExprCoreType.FLOAT), nullable) == Success(BasicSqlType(SqlTypeName.REAL, nullable))
    ensures ConvertExprTypeToRelDataType(Core(ExprCoreType.DOUBLE), nullable) == Success(BasicSqlType(SqlTypeName.DOUBLE, nullable))
    ensures ConvertExprTypeToRelDataType(Core(ExprCoreType.IP), nullable) == Success(BasicSqlType(SqlTypeName.VARCHAR, nullable))
    ensures ConvertExprTypeToRelDataType(Core(ExprCoreType.STRING), nullable) == Success(BasicSqlType(SqlTypeName.VARCHAR, nullable))
    ensures ConvertExprTypeToRelDataType(Core(ExprCoreType.BOOLEAN), nullable) == Success(BasicSqlType(SqlTypeName.BOOLEAN, nullable))
  {
  }

  /**
   * The relational type of each structured core type: the date and time UDTs, an array of ANY
   * that is not nullable itself, and a map from VARCHAR to BINARY.
   */
  lemma CoreStructuredTypes(nullable: bool)
    ensures ConvertExprTypeToRelDataType(Core(ExprCoreType.DATE), nullable) == Success(ExprUdtType(EXPR_DATE, nullable))
    ensures ConvertExprTypeToRelDataType(Core(ExprCoreType.TIME), nullable) == Success(ExprUdtType(EXPR_TIME, nullable))
    ensures ConvertExprTypeToRelDataType(Core(ExprCoreType.TIMESTAMP), nullable) == Success(ExprUdtType(EXPR_TIMESTAMP, nullable))
    ensures ConvertExprTypeToRelDataType(Core(ExprCoreType.ARRAY), nullable) == Success(ArraySqlType(BasicSqlType(SqlTypeName.ANY, nullable), false))
    ensures ConvertExprTypeToRelDataType(Core(ExprCoreType.STRUCT), nullable) == Success(MapSqlType(BasicSqlType(SqlTypeName.VARCHAR, false), BasicSqlType(SqlTypeName.BINARY, false), nullable))
  {
  }

  /** The core types that come back unchanged from a round trip through a relational type. */
  const RoundTripCoreTypes: set<ExprCoreType> := ConvertibleCoreTypes - {ExprCoreType.IP}

  /** Expression type -> relational type -> expression type gives back every core type but IP. */
  lemma RoundTrip(t: ExprCoreType, nullable: bool)
    requires t in RoundTripCoreTypes
    ensures ConvertExprTypeToRelDataType(Core(t), nullable).Success?
    ensures ConvertRelDataTypeToExprType(ConvertExprTypeToRelDataType(Core(t), nullable).value) == Success(Core(t))
  {
  }

  /** IP and STRING share VARCHAR, so IP comes back as STRING. */
  lemma IpComesBackAsString(nullable: bool)
    ensures ConvertExprTypeToRelDataType(Core(ExprCoreType.IP), nullable) == ConvertExprTypeToRelDataType(Core(ExprCoreType.STRING), nullable)
    ensures ConvertRelDataTypeToExprType(ConvertExprTypeToRelDataType(Core(ExprCoreType.IP), nullable).value) == Success(Core(ExprCoreType.STRING))
  {
  }

  /** The relational type each recognised legacy name gets. */
  lemma LegacyNameTypes(nullable: bool)
    ensures LegacyRelType("binary", nullable) == Some(BasicSqlType(SqlTypeName.BINARY, nullable))
    ensures LegacyRelType("timestamp", nullable) == Some(ExprUdtType(EXPR_TIMESTAMP, nullable))
    ensures LegacyRelType("date", nullable) == Some(ExprUdtType(EXPR_DATE, nullable))
    ensures LegacyRelType("time", nullable) == Some(ExprUdtType(EXPR_TIME, nullable))
    ensures LegacyRelType("geo_point", nullable) == Some(BasicSqlType(SqlTypeName.GEOMETRY, nullable))
    ensures LegacyRelType("text", nullable) == Some(BasicSqlType(SqlTypeName.VARCHAR, nullable))
    ensures LegacyRelType("ip", nullable) == Some(BasicSqlType(SqlTypeName.VARCHAR, nullable))
  {
  }

  /**
   * What each recognised legacy name's relational type converts back to: the date and time
   * names come back as themselves, text and ip as STRING, while binary and geo_point have no
   * expression type to come back as.
   */
  lemma LegacyNamesComeBack(nullable: bool)
    ensures ConvertRelDataTypeToExprType(LegacyRelType("binary", nullable).value) == Failure(UnsupportedRelationalType(SqlTypeName.BINARY))
    ensures ConvertRelDataTypeToExprType(LegacyRelType("timestamp", nullable).value) == Success(Core(ExprCoreType.TIMESTAMP))
    ensures ConvertRelDataTypeToExprType(LegacyRelType("date", nullable).value) == Success(Core(ExprCoreType.DATE))
    ensures ConvertRelDataTypeToExprType(LegacyRelType("time", nullable).value) == Success(Core(ExprCoreType.TIME))
    ensures ConvertRelDataTypeToExprType(LegacyRelType("geo_point", nullable).value) == Failure(UnsupportedRelationalType(SqlTypeName.GEOMETRY))
    ensures ConvertRelDataTypeToExprType(LegacyRelType("text", nullable).value) == Success(Core(ExprCoreType.STRING))
    ensures ConvertRelDataTypeToExprType(LegacyRelType("ip", nullable).value) == Success(Core(ExprCoreType.STRING))
  {
    LegacyNameTypes(nullable);
  }

  /** Legacy names that are equal ignoring case convert alike; so do a name and its upper case. */
  lemma ExtendedNameIgnoresCase(typeName: string, legacy: string, other: string, original: Option<ExprType>, nullable: bool)
    ensures EqualsIgnoreCase(legacy, other) ==>
              (ConvertExprTypeToRelDataType(Extended(typeName, legacy, original), nullable)
               == ConvertExprTypeToRelDataType(Extended(typeName, other, original), nullable))
    ensures ConvertExprTypeToRelDataType(Extended(typeName, legacy, original), nullable)
         == ConvertExprTypeToRelDataType(Extended(typeName, Upper(legacy), original), nullable)
  {
    EqualsIgnoreCaseFold(legacy, other);
    FoldUpper(legacy);
  }

  /** A capital I with dot above matches `i`, so "b\u0130nary" is recognised as binary. */
  lemma DottedCapitalIMatches(typeName: string, nullable: bool)
    ensures EqualsIgnoreCase("b\U{0130}nary", "binary")
    ensures ConvertExprTypeToRelDataType(Extended(typeName, "b\U{0130}nary", None), nullable)
         == Success(BasicSqlType(SqlTypeName.BINARY, nullable))
  {
    FoldPointwise("b\U{0130}nary", "binary");
    LegacyBinaryTest("b\U{0130}nary");
  }

  /** An unrecognised extended type that is an alias converts as its original type. */
  lemma AliasConvertsAsOriginal(typeName: string, legacy: string, original: ExprType, nullable: bool)
    requires !RecognisedLegacyName(legacy)
    ensures ConvertExprTypeToRelDataType(Extended(typeName, legacy, Some(original)), nullable)
         == ConvertExprTypeToRelDataType(original, nullable)
  {
  }

  /** `convertSchema`: one field per table entry, in entry order, each with its converted type. */
  method ConvertSchema(fieldTypes: seq<(string, ExprType)>) returns (r: Result<RelType, TypeError>)
    ensures r.Success? <==>
              forall i :: 0 <= i < |fieldTypes| ==> ConvertExprTypeToRelDataType(fieldTypes[i].1, true).Success?
    ensures r.Success? ==>
              && r.value.RecordType? && r.value.nullable
              && |r.value.fieldNames| == |fieldTypes| && |r.value.fieldTypes| == |fieldTypes|
              && (forall i :: 0 <= i < |fieldTypes| ==> r.value.fieldNames[i] == fieldTypes[i].0)
              && (forall i :: 0 <= i < |fieldTypes| ==>
                    Success(r.value.fieldTypes[i]) == ConvertExprTypeToRelDataType(fieldTypes[i].1, true))
    // the first entry that cannot be converted decides the error
    ensures r.Failure? ==>
              exists i :: 0 <= i < |fieldTypes| &&
                (forall j :: 0 <= j < i ==> ConvertExprTypeToRelDataType(fieldTypes[j].1, true).Success?) &&
                ConvertExprTypeToRelDataType(fieldTypes[i].1, true) == Failure(r.error)
  {
    var fieldNameList: seq<string> := [];
    var typeList: seq<RelType> := [];
    var i := 0;
    while i < |fieldTypes|
      invariant 0 <= i <= |fieldTypes|
      invariant |fieldNameList| == i && |typeList| == i
      invariant forall k :: 0 <= k < i ==> fieldNameList[k] == fieldTypes[k].0
      invariant forall k :: 0 <= k < i ==> Success(typeList[k]) == ConvertExprTypeToRelDataType(fieldTypes[k].1, true)
    {
      var converted := ConvertExprTypeToRelDataType(fieldTypes[i].1, true);
      if converted.Failure? {
        return Failure(converted.error);
      }
      fieldNameList := fieldNameList + [fieldTypes[i].0];
      typeList := typeList + [converted.value];
      i := i + 1;
    }
    return Success(RecordType(fieldNameList, typeList, true));
  }
}
