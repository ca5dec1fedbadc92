/**
 * The Compact upsert target (CompactUpsertTarget.java).
 *
 * The target is bound to one fixed Compact schema. An injector is chosen by
 * the kind the schema declares for the path; `Init` installs a fresh record
 * builder, injectors call its setters, `Conclude` builds the record and
 * drops the builder.
 */
module CompactFormat {
  import opened Results
  import opened Values
  import SqlTypes

  /** The field kinds of the Compact format. */
  datatype FieldKind =
    | NotAvailable | Boolean | Int8 | Char | Int16 | Int32 | Int64 | Float32 | Float64
    | String | Decimal | Time | Date | Timestamp | TimestampWithTimezone | Compact | Portable
    | NullableBoolean | NullableInt8 | NullableInt16 | NullableInt32 | NullableInt64
    | NullableFloat32 | NullableFloat64
    // Compact has arrays of single kinds only. The type also admits nested
    // arrays, which no schema declares; every array kind is unsupported in SQL
    // and `CreateInjector` rejects it before any value is written.
    | ArrayOf(element: FieldKind)

  /** The kind's enum constant name, as error messages print it. */
  function KindName(k: FieldKind): string {
    match k
    case NotAvailable => "NOT_AVAILABLE"
    case Boolean => "BOOLEAN"
    case Int8 => "INT8"
    case Char => "CHAR"
    case Int16 => "INT16"
    case Int32 => "INT32"
    case Int64 => "INT64"
    case Float32 => "FLOAT32"
    case Float64 => "FLOAT64"
    case String => "STRING"
    case Decimal => "DECIMAL"
    case Time => "TIME"
    case Date => "DATE"
    case Timestamp => "TIMESTAMP"
    case TimestampWithTimezone => "TIMESTAMP_WITH_TIMEZONE"
    case Compact => "COMPACT"
    case Portable => "PORTABLE"
    case NullableBoolean => "NULLABLE_BOOLEAN"
    case NullableInt8 => "NULLABLE_INT8"
    case NullableInt16 => "NULLABLE_INT16"
    case NullableInt32 => "NULLABLE_INT32"
    case NullableInt64 => "NULLABLE_INT64"
    case NullableFloat32 => "NULLABLE_FLOAT32"
    case NullableFloat64 => "NULLABLE_FLOAT64"
    case ArrayOf(e) => "ARRAY_OF_" + KindName(e)
  }

  /** The kinds SQL can write into a Compact record. */
  predicate Supported(k: FieldKind) {
    k in {String, NullableBoolean, NullableInt8, NullableInt16, NullableInt32, NullableInt64,
          Decimal, NullableFloat32, NullableFloat64, Time, Date, Timestamp, TimestampWithTimezone,
          Compact}
  }

  /** A Compact schema: a type name and the kind of each field. */
  datatype Schema = Schema(typeName: string, fields: map<string, FieldKind>)

  /** What a record holds under a field: a plain value, or a nested record (null is `None`). */
  datatype FieldValue = Plain(v: Value) | Nested(record: Option<GenericRecord>)

  datatype GenericRecord = GenericRecord(schema: Schema, values: map<string, FieldValue>)

  /** The Java class a setter casts its argument to. */
  function JavaClass(k: FieldKind): string {
    match k
    case String => "String"
    case NullableBoolean => "Boolean"
    case NullableInt8 => "Byte"
    case NullableInt16 => "Short"
    case NullableInt32 => "Integer"
    case NullableInt64 => "Long"
    case Decimal => "BigDecimal"
    case NullableFloat32 => "Float"
    case NullableFloat64 => "Double"
    case Time => "LocalTime"
    case Date => "LocalDate"
    case Timestamp => "LocalDateTime"
    case TimestampWithTimezone => "OffsetDateTime"
    case Compact => "RowValue"
    case _ => "Object"
  }

  /** Whether the cast to the setter's class accepts the value; a null always passes a cast. */
  predicate CastsTo(k: FieldKind, v: Value) {
    match v
    case JNull => true
    case JString(_) => k == String
    case JBoolean(_) => k == NullableBoolean
    case JByte(_) => k == NullableInt8
    case JShort(_) => k == NullableInt16
    case JInteger(_) => k == NullableInt32
    case JLong(_) => k == NullableInt64
    case JBigDecimal(_, _) => k == Decimal
    case JFloat(_) => k == NullableFloat32
    case JDouble(_) => k == NullableFloat64
    case JTemporal(t, _) =>
      (t == LocalTime && k == Time) || (t == LocalDate && k == Date)
      || (t == LocalDateTime && k == Timestamp) || (t == OffsetDateTime && k == TimestampWithTimezone)
    case JRow(_) => k == Compact
    case _ => false
  }

  /**
   * Converts a nested row into a Compact record for a field's SQL type
   * (`convertRowToCompactType`, which is not part of this model).
   */
  type RowConverter = (Value, SqlTypes.QueryDataType) -> Result<Option<GenericRecord>>

  /**
   * A precomputed injector: the shared top-level one, one that fails on every
   * call because the schema lacks the field, or the setter of a supported kind.
   */
  datatype Injector =
    | FailingTopLevel
    | MissingField(path: string)
    | Setter(path: string, kind: FieldKind, dataType: SqlTypes.QueryDataType)

  function MissingFieldMessage(path: string): string {
    "Field \"" + path + "\" doesn't exist in Compact schema"
  }

  function UnsupportedKindMessage(k: FieldKind): string {
    KindName(k) + " kind is not supported in SQL with Compact format!"
  }

  /** `createInjector`: a lookup in the fixed schema, then a switch on the declared kind. */
  function CreateInjector(schema: Schema, path: Option<string>, dataType: SqlTypes.QueryDataType): (r: Result<Injector>)
    ensures path.None? ==> r == Ok(FailingTopLevel)
    ensures path.Some? && path.value !in schema.fields ==> r == Ok(MissingField(path.value))
    ensures path.Some? && path.value in schema.fields ==>
              var kind := schema.fields[path.value];
              && (r.Ok? <==> Supported(kind))
              && (r.Ok? ==> r.value == Setter(path.value, kind, dataType))
              && (r.Err? ==> r.failure == QueryError(UnsupportedKindMessage(kind)))
    ensures r.Ok? && r.value.Setter? ==> Supported(r.value.kind)
  {
    if path.None? then Ok(FailingTopLevel)
    else if path.value !in schema.fields then Ok(MissingField(path.value))
    else
      var kind := schema.fields[path.value];
      if Supported(kind) then Ok(Setter(path.value, kind, dataType))
      else Err(QueryError(UnsupportedKindMessage(kind)))
  }

  /**
   * The setter is chosen by the kind the schema declares, not by the query
   * type: two query types for the same path give the same kind, or fail alike.
   */
  lemma KindFromSchema(schema: Schema, p: string, t1: SqlTypes.QueryDataType, t2: SqlTypes.QueryDataType)
    ensures CreateInjector(schema, Some(p), t1).Ok? == CreateInjector(schema, Some(p), t2).Ok?
    ensures CreateInjector(schema, Some(p), t1).Ok? && CreateInjector(schema, Some(p), t1).value.Setter? ==>
              CreateInjector(schema, Some(p), t2).value.Setter?
              && CreateInjector(schema, Some(p), t1).value.kind == CreateInjector(schema, Some(p), t2).value.kind
              && CreateInjector(schema, Some(p), t1).value.kind == schema.fields[p]
  {
  }

  /**
   * One call of an injector against the builder's field values. A setter
   * writes its own path and nothing else.
   */
  function Set(convert: RowConverter, inj: Injector, v: Value, fields: map<string, FieldValue>)
    : (r: Result<map<string, FieldValue>>)
    ensures inj.FailingTopLevel? ==> r == Err(TopLevelWriteRejected)
    ensures inj.MissingField? ==> r == Err(QueryError(MissingFieldMessage(inj.path)))
    ensures inj.Setter? && !CastsTo(inj.kind, v) ==> r == Err(CastFailed(JavaClass(inj.kind)))
    ensures r.Ok? ==> inj.Setter? && CastsTo(inj.kind, v)
    ensures r.Ok? ==> r.value.Keys == fields.Keys + {inj.path}
    ensures r.Ok? ==> forall f :: f in fields && f != inj.path ==> r.value[f] == fields[f]
    ensures r.Ok? && inj.kind != Compact ==> r.value[inj.path] == Plain(v)
    ensures inj.Setter? && inj.kind != Compact && CastsTo(inj.kind, v) ==>
              r == Ok(fields[inj.path := Plain(v)])
    ensures inj.Setter? && inj.kind == Compact && CastsTo(Compact, v) ==>
              match convert(v, inj.dataType)
              case Ok(nested) => r == Ok(fields[inj.path := Nested(nested)])
              case Err(f) => r == Err(f)
  {
    match inj
    case FailingTopLevel => Err(TopLevelWriteRejected)
    case MissingField(p) => Err(QueryError(MissingFieldMessage(p)))
    case Setter(p, k, t) =>
      if !CastsTo(k, v) then Err(CastFailed(JavaClass(k)))
      else if k == Compact then
        match convert(v, t)
        case Ok(nested) => Ok(fields[p := Nested(nested)])
        case Err(f) => Err(f)
      else Ok(fields[p := Plain(v)])
  }

  class CompactUpsertTarget {
    const schema: Schema
    const convertRow: RowConverter
    var record: Option<map<string, FieldValue>>  // the builder's fields; None when there is no builder

    constructor (schema: Schema, convertRow: RowConverter)
      ensures this.schema == schema && this.convertRow == convertRow && record == None
    {
      this.schema := schema;
      this.convertRow := convertRow;
      record := None;
    }

    /** Installs a fresh builder bound to the target's fixed schema. */
    method Init()
      modifies this
      ensures record == Some(map[])
    {
      record := Some(map[]);
    }

    /**
     * Applies an injector to a value. Only a setter touches the builder, and a
     * setter needs one (before Init, or after Conclude, it would dereference null).
     */
    method Inject(inj: Injector, v: Value) returns (failure: Option<Failure>)
      requires inj.Setter? ==> record.Some?
      modifies this
      ensures var s := Set(convertRow, inj, v, if old(record).Some? then old(record).value else map[]);
              && (failure.Some? <==> s.Err?)
              && (s.Err? ==> failure == Some(s.failure) && record == old(record))
              && (s.Ok? ==> record == Some(s.value))
    {
      var current := if record.Some? then record.value else map[];
      var s := Set(convertRow, inj, v, current);
      match s
      case Ok(fields) =>
        record := Some(fields);
        failure := None;
      case Err(f) =>
        failure := Some(f);
    }

    /** Builds the record from the builder's fields and drops the builder. */
    method Conclude() returns (r: GenericRecord)
      requires record.Some?
      modifies this
      ensures r == GenericRecord(schema, old(record).value)
      ensures record == None
    {
      r := GenericRecord(schema, record.value);
      record := None;
    }
  }
}
