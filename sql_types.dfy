/**
 * The SQL side's description of a column: its type family, the kind of a
 * custom object type, the query path that says whether a column belongs to
 * the key or to the value, and the descriptors that name a target format.
 */
module SqlTypes {
  import opened Results

  datatype TypeFamily =
    | Varchar | Boolean | TinyInt | SmallInt | Integer | BigInt | Decimal | Real | Double
    | Time | Date | Timestamp | TimestampWithTimeZone | Object | Null
    | IntervalYearMonth | IntervalDaySecond | Map | Json | Row

  /** The family's enum constant name, as error messages print it. */
  function FamilyName(f: TypeFamily): string {
    match f
    case Varchar => "VARCHAR"
    case Boolean => "BOOLEAN"
    case TinyInt => "TINYINT"
    case SmallInt => "SMALLINT"
    case Integer => "INTEGER"
    case BigInt => "BIGINT"
    case Decimal => "DECIMAL"
    case Real => "REAL"
    case Double => "DOUBLE"
    case Time => "TIME"
    case Date => "DATE"
    case Timestamp => "TIMESTAMP"
    case TimestampWithTimeZone => "TIMESTAMP_WITH_TIME_ZONE"
    case Object => "OBJECT"
    case Null => "NULL"
    case IntervalYearMonth => "INTERVAL_YEAR_MONTH"
    case IntervalDaySecond => "INTERVAL_DAY_SECOND"
    case Map => "MAP"
    case Json => "JSON"
    case Row => "ROW"
  }

  /** How a custom (user-declared) object type is backed. */
  datatype TypeKind = NotCustom | JavaKind | PortableKind | CompactKind

  function TypeKindName(k: TypeKind): string {
    match k
    case NotCustom => "NONE"
    case JavaKind => "JAVA"
    case PortableKind => "PORTABLE"
    case CompactKind => "COMPACT"
  }

  /** A column type: its family, and for a custom object type its name and kind. */
  datatype QueryDataType = QueryDataType(family: TypeFamily, objectTypeName: string, objectTypeKind: TypeKind)

  const INT: QueryDataType := QueryDataType(Integer, "", NotCustom)
  const VARCHAR: QueryDataType := QueryDataType(Varchar, "", NotCustom)

  /**
   * Where a column goes: into the key or the value, either as the whole object
   * (`path == None`) or as a named field of it.
   */
  datatype QueryPath = QueryPath(isKey: bool, path: Option<string>) {
    predicate IsTop() { path.None? }
  }

  const KEY: QueryPath := QueryPath(true, None)
  const VALUE: QueryPath := QueryPath(false, None)

  /** The reserved names of the whole key and the whole value. */
  const KEY_NAME: string := "__key"
  const VALUE_NAME: string := "this"

  /** A serialisable description from which a worker builds a target. */
  datatype UpsertTargetDescriptor =
    | PrimitiveDescriptor
    | JsonDescriptor
    | CompactDescriptor(compactTypeName: string)
    | HazelcastObjectDescriptor(typeName: string)
}
