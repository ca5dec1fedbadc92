/**
 * The JSON upsert target (JsonUpsertTarget.java).
 *
 * One JSON object is written per row into a reused output buffer: `Init`
 * resets the buffer and opens the object, every injector appends one field,
 * `Conclude` closes the object and returns a copy of the buffer. The output is
 * modelled as a sequence of generator tokens rather than bytes.
 */
module Json {
  import opened Results
  import opened Values
  import opened SqlTypes

  datatype JsonNumber =
    | Int8Number(i8: int8)
    | Int16Number(i16: int16)
    | Int32Number(i32: int32)
    | Int64Number(i64: int64)
    | Float32Number(f32: int)
    | Float64Number(f64: int)

  /** What the generator is asked to write, one call at a time. */
  datatype Token =
    | StartObject
    | EndObject
    | FieldName(name: string)
    | NullToken
    | BooleanToken(b: bool)
    | NumberToken(n: JsonNumber)
    | StringToken(s: string)
    | TreeToken(tree: nat)    // a Jackson tree, written as structure
    | MapToken(mapId: nat)    // a java.util.Map, written as structure

  /** A token that is a complete JSON value (it can follow a field name). */
  predicate IsValueToken(t: Token) {
    !(t.StartObject? || t.EndObject? || t.FieldName?)
  }

  /**
   * The coercions of the SQL type system (`QueryDataType.convert` for each
   * target family), which are not part of this model: `None` is a value the
   * coercion rejects.
   */
  datatype Coercions = Coercions(
    toBoolean: Value -> Option<bool>,
    toTinyInt: Value -> Option<int8>,
    toSmallInt: Value -> Option<int16>,
    toInt: Value -> Option<int32>,
    toBigInt: Value -> Option<int64>,
    toReal: Value -> Option<int>,
    toDouble: Value -> Option<int>,
    toVarchar: Value -> Option<string>)

  /** The typed write an injector performs for a non-null value. */
  datatype FieldWriter =
    | BooleanWriter | TinyIntWriter | SmallIntWriter | IntegerWriter | BigIntWriter
    | RealWriter | DoubleWriter | VarcharWriter | ObjectWriter

  /** A precomputed injector: the shared top-level one, or a field write under a path. */
  datatype Injector = FailingTopLevel | FieldInjector(path: string, writer: FieldWriter)

  /** The switch on the type family; `None` for a family JSON cannot write. */
  function WriterFor(family: TypeFamily): Option<FieldWriter> {
    match family
    case Boolean => Some(BooleanWriter)
    case TinyInt => Some(TinyIntWriter)
    case SmallInt => Some(SmallIntWriter)
    case Integer => Some(IntegerWriter)
    case BigInt => Some(BigIntWriter)
    case Real => Some(RealWriter)
    case Double => Some(DoubleWriter)
    case Decimal => Some(VarcharWriter)
    case Time => Some(VarcharWriter)
    case Date => Some(VarcharWriter)
    case Timestamp => Some(VarcharWriter)
    case TimestampWithTimeZone => Some(VarcharWriter)
    case Varchar => Some(VarcharWriter)
    case Object => Some(ObjectWriter)
    case _ => None
  }

  function UnsupportedTypeMessage(dataType: QueryDataType): string {
    "Unsupported type: " + FamilyName(dataType.family)
  }

  /** The families JSON can write. */
  predicate JsonWritable(f: TypeFamily) {
    f in {Boolean, TinyInt, SmallInt, Integer, BigInt, Real, Double,
          Decimal, Time, Date, Timestamp, TimestampWithTimeZone, Varchar, Object}
  }

  /** The families written as a JSON number. */
  predicate NumericFamily(f: TypeFamily) {
    f in {TinyInt, SmallInt, Integer, BigInt, Real, Double}
  }

  /** The families written as the string their VARCHAR conversion gives. */
  predicate TextFamily(f: TypeFamily) {
    f in {Decimal, Time, Date, Timestamp, TimestampWithTimeZone, Varchar}
  }

  /** The SQL family whose width a number token has. */
  function WidthOf(n: JsonNumber): TypeFamily {
    match n
    case Int8Number(_) => TinyInt
    case Int16Number(_) => SmallInt
    case Int32Number(_) => Integer
    case Int64Number(_) => BigInt
    case Float32Number(_) => Real
    case Float64Number(_) => Double
  }

  /**
   * `createInjector`: built once per column, ahead of the rows. A missing path
   * gives the shared top-level injector, whatever the type; otherwise the type
   * family alone decides, and a family JSON cannot write is rejected here,
   * before any row is seen.
   */
  function CreateInjector(path: Option<string>, dataType: QueryDataType): (r: Result<Injector>)
    ensures path.None? ==> r == Ok(FailingTopLevel)
    ensures path.Some? ==> (r.Ok? <==> JsonWritable(dataType.family))
    ensures path.Some? && r.Ok? ==> r.value.FieldInjector? && r.value.path == path.value
    ensures r.Err? ==> r.failure == QueryError("Unsupported type: " + FamilyName(dataType.family))
  {
    if path.None? then Ok(FailingTopLevel)
    else match WriterFor(dataType.family)
      case Some(w) => Ok(FieldInjector(path.value, w))
      case None => Err(QueryError(UnsupportedTypeMessage(dataType)))
  }

  /** The tokens one write appends, and the failure that stopped it, if any. */
  datatype Emission = Emission(tokens: seq<Token>, failure: Option<Failure>)

  /** Exactly one field: its name, then one value token. */
  predicate IsField(tokens: seq<Token>, path: string) {
    |tokens| == 2 && tokens[0] == FieldName(path) && IsValueToken(tokens[1])
  }

  /** `writeXField(path, converted)`: the coercion runs first, so a rejected value writes nothing. */
  function ConvertedField<T>(path: string, converted: Option<T>, family: TypeFamily, token: T -> Token): Emission {
    match converted
    case Some(x) => Emission([FieldName(path), token(x)], None)
    case None => Emission([], Some(ConversionFailed(FamilyName(family))))
  }

  /** The native token of a tree, a map or a boxed boolean or number; `None` for anything else. */
  function NativeToken(v: Value): (r: Option<Token>)
    ensures r.Some? <==> v.JTreeNode? || v.JMap? || v.JBoolean? || v.JByte? || v.JShort?
                         || v.JInteger? || v.JLong? || v.JFloat? || v.JDouble?
    ensures r.Some? ==> IsValueToken(r.value)
  {
    match v
    case JTreeNode(t) => Some(TreeToken(t))
    case JMap(m) => Some(MapToken(m))
    case JBoolean(b) => Some(BooleanToken(b))
    case JByte(x) => Some(NumberToken(Int8Number(x)))
    case JShort(x) => Some(NumberToken(Int16Number(x)))
    case JInteger(x) => Some(NumberToken(Int32Number(x)))
    case JLong(x) => Some(NumberToken(Int64Number(x)))
    case JFloat(x) => Some(NumberToken(Float32Number(x)))
    case JDouble(x) => Some(NumberToken(Float64Number(x)))
    case _ => None
  }

  /** The closures of `createInjector1`, applied to a non-null value. */
  function WriteNonNull(c: Coercions, path: string, w: FieldWriter, v: Value): (e: Emission)
    ensures e.failure.None? ==> IsField(e.tokens, path)
    ensures e.failure.Some? ==> e.failure.value.ConversionFailed?
    ensures e.failure.Some? && e.tokens != [] ==> w == ObjectWriter && e.tokens == [FieldName(path)]
  {
    match w
    case BooleanWriter => ConvertedField(path, c.toBoolean(v), Boolean, b => BooleanToken(b))
    case TinyIntWriter => ConvertedField(path, c.toTinyInt(v), TinyInt, (x: int8) => NumberToken(Int8Number(x)))
    case SmallIntWriter => ConvertedField(path, c.toSmallInt(v), SmallInt, (x: int16) => NumberToken(Int16Number(x)))
    case IntegerWriter => ConvertedField(path, c.toInt(v), Integer, (x: int32) => NumberToken(Int32Number(x)))
    case BigIntWriter => ConvertedField(path, c.toBigInt(v), BigInt, (x: int64) => NumberToken(Int64Number(x)))
    case RealWriter => ConvertedField(path, c.toReal(v), Real, (x: int) => NumberToken(Float32Number(x)))
    case DoubleWriter => ConvertedField(path, c.toDouble(v), Double, (x: int) => NumberToken(Float64Number(x)))
    case VarcharWriter => ConvertedField(path, c.toVarchar(v), Varchar, s => StringToken(s))
    case ObjectWriter =>
      // the field name is written before the value is inspected
      match NativeToken(v)
      case Some(t) => Emission([FieldName(path), t], None)
      case None =>
        match c.toVarchar(v)
        case Some(s) => Emission([FieldName(path), StringToken(s)], None)
        case None => Emission([FieldName(path)], Some(ConversionFailed(FamilyName(Varchar))))
  }

  /**
   * One call of an injector (`createInjector0` around `createInjector1`):
   * a null short-circuits to an explicit null field, whatever the writer.
   */
  function Emit(c: Coercions, inj: Injector, v: Value): (e: Emission)
    ensures inj.FailingTopLevel? ==> e == Emission([], Some(TopLevelWriteRejected))
    ensures inj.FieldInjector? && v == JNull ==> e == Emission([FieldName(inj.path), NullToken], None)
    ensures e.failure.None? <==> inj.FieldInjector? && IsField(e.tokens, inj.path)
    ensures e.failure.Some? ==> e.tokens == [] || (inj.FieldInjector? && e.tokens == [FieldName(inj.path)])
  {
    match inj
    case FailingTopLevel => Emission([], Some(TopLevelWriteRejected))
    case FieldInjector(p, w) =>
      if v == JNull then Emission([FieldName(p), NullToken], None) else WriteNonNull(c, p, w, v)
  }

  /**
   * What a field injector writes for a non-null value, family by family:
   * BOOLEAN a boolean, the numeric families a number of the family's own
   * width, the textual families the VARCHAR conversion as a string, and
   * OBJECT the field name followed by the value's native token or, failing
   * that, its VARCHAR conversion.
   */
  lemma TypedWrites(c: Coercions, p: string, dataType: QueryDataType, v: Value)
    requires v != JNull && JsonWritable(dataType.family)
    ensures var e := Emit(c, CreateInjector(Some(p), dataType).value, v);
            && (dataType.family == Boolean ==>
                  e == (match c.toBoolean(v)
                        case Some(b) => Emission([FieldName(p), BooleanToken(b)], None)
                        case None => Emission([], Some(ConversionFailed("BOOLEAN")))))
            && (NumericFamily(dataType.family) && e.failure.None? ==>
                  e.tokens[1].NumberToken? && WidthOf(e.tokens[1].n) == dataType.family)
            && (dataType.family == TinyInt ==>
                  e == (match c.toTinyInt(v)
                        case Some(x) => Emission([FieldName(p), NumberToken(Int8Number(x))], None)
                        case None => Emission([], Some(ConversionFailed("TINYINT")))))
            && (dataType.family == SmallInt ==>
                  e == (match c.toSmallInt(v)
                        case Some(x) => Emission([FieldName(p), NumberToken(Int16Number(x))], None)
                        case None => Emission([], Some(ConversionFailed("SMALLINT")))))
            && (dataType.family == Integer ==>
                  e == (match c.toInt(v)
                        case Some(x) => Emission([FieldName(p), NumberToken(Int32Number(x))], None)
                        case None => Emission([], Some(ConversionFailed("INTEGER")))))
            && (dataType.family == BigInt ==>
                  e == (match c.toBigInt(v)
                        case Some(x) => Emission([FieldName(p), NumberToken(Int64Number(x))], None)
                        case None => Emission([], Some(ConversionFailed("BIGINT")))))
            && (dataType.family == Real ==>
                  e == (match c.toReal(v)
                        case Some(x) => Emission([FieldName(p), NumberToken(Float32Number(x))], None)
                        case None => Emission([], Some(ConversionFailed("REAL")))))
            && (dataType.family == Double ==>
                  e == (match c.toDouble(v)
                        case Some(x) => Emission([FieldName(p), NumberToken(Float64Number(x))], None)
                        case None => Emission([], Some(ConversionFailed("DOUBLE")))))
            && (TextFamily(dataType.family) ==>
                  e == (match c.toVarchar(v)
                        case Some(s) => Emission([FieldName(p), StringToken(s)], None)
                        case None => Emission([], Some(ConversionFailed("VARCHAR")))))
            && (dataType.family == Object ==>
                  && e.tokens[0] == FieldName(p)
                  && (NativeToken(v).Some? ==> e == Emission([FieldName(p), NativeToken(v).value], None))
                  && (NativeToken(v).None? && c.toVarchar(v).Some? ==>
                        e == Emission([FieldName(p), StringToken(c.toVarchar(v).value)], None)))
  {
  }

  /** A null is written as an explicit null field by every field injector, whatever its family. */
  lemma NullWritesNullField(c: Coercions, p: string, dataType: QueryDataType)
    requires JsonWritable(dataType.family)
    ensures Emit(c, CreateInjector(Some(p), dataType).value, JNull) == Emission([FieldName(p), NullToken], None)
  {
  }

  /** The tokens of several writes, in write order. */
  function Flatten(es: seq<Emission>): seq<Token> {
    if es == [] then [] else es[0].tokens + Flatten(es[1..])
  }

  lemma {:induction false} FlattenAppend(es: seq<Emission>, e: Emission)
    ensures Flatten(es + [e]) == Flatten(es) + e.tokens
  {
    if es == [] {
      assert [e][1..] == [];
    } else {
      assert (es + [e])[1..] == es[1..] + [e];
      FlattenAppend(es[1..], e);
    }
  }

  /** A write that completed: one field name and one value. */
  predicate Succeeded(e: Emission) {
    e.failure.None? && |e.tokens| == 2 && e.tokens[0].FieldName? && IsValueToken(e.tokens[1])
  }

  /** The (name, value) pairs a sequence of successful writes produced. */
  function Fields(es: seq<Emission>): seq<(string, Token)>
    requires forall i :: 0 <= i < |es| ==> Succeeded(es[i])
  {
    if es == [] then []
    else
      assert Succeeded(es[0]);
      [(es[0].tokens[0].name, es[0].tokens[1])] + Fields(es[1..])
  }

  /** Reads `name value ... EndObject`: the inside of one flat JSON object. */
  function ParseFields(ts: seq<Token>): Option<seq<(string, Token)>>
    decreases |ts|
  {
    if ts == [EndObject] then Some([])
    else if |ts| >= 2 && ts[0].FieldName? && IsValueToken(ts[1]) then
      match ParseFields(ts[2..])
      case Some(rest) => Some([(ts[0].name, ts[1])] + rest)
      case None => None
    else None
  }

  /** Reads one flat JSON object and returns its fields in order. */
  function ParseObject(ts: seq<Token>): Option<seq<(string, Token)>> {
    if |ts| >= 1 && ts[0] == StartObject then ParseFields(ts[1..]) else None
  }

  /** Writes that all succeeded read back as an object holding exactly those fields, in write order. */
  lemma {:induction false} SuccessfulWritesParse(es: seq<Emission>)
    requires forall i :: 0 <= i < |es| ==> Succeeded(es[i])
    ensures ParseFields(Flatten(es) + [EndObject]) == Some(Fields(es))
  {
    if es != [] {
      SuccessfulWritesParse(es[1..]);
      var ts := Flatten(es) + [EndObject];
      assert ts == es[0].tokens + (Flatten(es[1..]) + [EndObject]);
      assert ts[2..] == Flatten(es[1..]) + [EndObject];
    }
  }

  datatype TargetState = Uninitialized | Accumulating

  /** The reused output buffer (a ByteArrayOutputStream). */
  class TokenBuffer {
    var contents: seq<Token>

    constructor ()
      ensures contents == []
    {
      contents := [];
    }

    method Reset()
      modifies this
      ensures contents == []
    {
      contents := [];
    }

    method Append(ts: seq<Token>)
      modifies this
      ensures contents == old(contents) + ts
    {
      contents := contents + ts;
    }
  }

  class JsonUpsertTarget {
    const coercions: Coercions
    const baos: TokenBuffer
    var state: TargetState     // whether a generator is open on the buffer
    ghost var written: seq<Emission>  // the writes since the last Init

    ghost predicate Valid()
      reads this, baos
    {
      state == Accumulating ==> baos.contents == [StartObject] + Flatten(written)
    }

    constructor (coercions: Coercions)
      ensures Valid() && fresh(baos)
      ensures this.coercions == coercions && state == Uninitialized
    {
      this.coercions := coercions;
      baos := new TokenBuffer();
      state := Uninitialized;
      written := [];
    }

    /** Resets the same buffer and opens a new object: nothing of an earlier row survives. */
    method Init()
      modifies this, baos
      ensures Valid() && state == Accumulating && written == []
      ensures baos.contents == [StartObject]
    {
      baos.Reset();
      state := Accumulating;
      baos.Append([StartObject]);
      written := [];
    }

    /**
     * Applies an injector to a value. The shared top-level injector never
     * touches the generator; a field injector needs an open one.
     */
    method Inject(inj: Injector, v: Value) returns (failure: Option<Failure>)
      requires Valid()
      requires inj.FieldInjector? ==> state == Accumulating
      modifies this`written, baos
      ensures Valid()
      ensures failure == Emit(coercions, inj, v).failure
      ensures baos.contents == old(baos.contents) + Emit(coercions, inj, v).tokens
      ensures state == Accumulating ==> written == old(written) + [Emit(coercions, inj, v)]
    {
      var e := Emit(coercions, inj, v);
      if inj.FieldInjector? {
        baos.Append(e.tokens);
        FlattenAppend(written, e);
        written := written + [e];
      } else {
        assert e.tokens == [];
        if state == Accumulating {
          FlattenAppend(written, e);
          written := written + [e];
        }
      }
      failure := e.failure;
    }

    /**
     * Closes the object and returns a copy of the buffer: start-object, the
     * writes since the last Init in write order, end-object.
     */
    method Conclude() returns (bytes: seq<Token>)
      requires Valid() && state == Accumulating
      modifies this`state, baos
      ensures Valid() && state == Uninitialized
      ensures bytes == [StartObject] + Flatten(old(written)) + [EndObject]
      ensures baos.contents == bytes
      ensures old(written) == [] ==> bytes == [StartObject, EndObject]
      ensures (forall i :: 0 <= i < |old(written)| ==> Succeeded(old(written)[i])) ==>
                ParseObject(bytes) == Some(Fields(old(written)))
    {
      if forall i :: 0 <= i < |written| ==> Succeeded(written[i]) {
        SuccessfulWritesParse(written);
        assert ([StartObject] + Flatten(written) + [EndObject])[1..] == Flatten(written) + [EndObject];
      }
      baos.Append([EndObject]);
      state := Uninitialized;
      bytes := baos.contents;
    }
  }
}
