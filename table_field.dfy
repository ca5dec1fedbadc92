/**
 * A column of a table (TableField.java): its name, its SQL type and whether
 * it is hidden, with value equality, a hash that agrees with it, and a
 * field-order serialisation.
 */
module TableFields {
  import opened Results
  import opened Values
  import opened SqlTypes
  import opened Serialization

  /** The runtime class of a plain table field; subclasses carry their own. */
  const TABLE_FIELD_CLASS: string := "TableField"

  class TableField {
    const runtimeClass: string   // what `getClass()` returns
    var name: string
    var fieldType: QueryDataType
    var hidden: bool

    /** The public constructor: the getters return exactly these arguments. */
    constructor (name: string, fieldType: QueryDataType, hidden: bool)
      ensures runtimeClass == TABLE_FIELD_CLASS
      ensures this.name == name && this.fieldType == fieldType && this.hidden == hidden
    {
      runtimeClass := TABLE_FIELD_CLASS;
      this.name := name;
      this.fieldType := fieldType;
      this.hidden := hidden;
    }

    /** The same constructor as called by a subclass of the given runtime class. */
    constructor OfClass(runtimeClass: string, name: string, fieldType: QueryDataType, hidden: bool)
      ensures this.runtimeClass == runtimeClass
      ensures this.name == name && this.fieldType == fieldType && this.hidden == hidden
    {
      this.runtimeClass := runtimeClass;
      this.name := name;
      this.fieldType := fieldType;
      this.hidden := hidden;
    }

    /**
     * The no-argument constructor deserialisation uses before `ReadData`;
     * the fields hold placeholders until then.
     */
    constructor Blank(runtimeClass: string)
      ensures this.runtimeClass == runtimeClass
    {
      this.runtimeClass := runtimeClass;
      name := "";
      fieldType := QueryDataType(Null, "", NotCustom);
      hidden := false;
    }

    /**
     * `equals(Object)`: the identity shortcut, then null and class checks, then
     * the three fields. An argument that is not a `TableField` at all fails
     * the class check, so narrowing the parameter to `TableField?` loses no case.
     */
    method Equals(o: TableField?) returns (r: bool)
      ensures r <==> o != null && Same(this, o)
      ensures o == this ==> r
    {
      if this == o {
        return true;
      }
      if o == null || runtimeClass != o.runtimeClass {
        return false;
      }
      r := name == o.name && fieldType == o.fieldType && hidden == o.hidden;
    }

    /**
     * `hashCode()`: the straight-line accumulator over name, type and
     * hidden, in 32-bit arithmetic, given the hashes of the name and the type.
     */
    method HashCode(stringHash: string -> int32, typeHash: QueryDataType -> int32) returns (h: int32)
      ensures h == FieldHash(stringHash, typeHash, this)
    {
      var result := stringHash(name);
      result := Wrap32(31 * result + typeHash(fieldType));
      result := Wrap32(31 * result + (if hidden then 1 else 0));
      WrapStep(31 * stringHash(name) + typeHash(fieldType), if hidden then 1 else 0);
      h := result;
    }

    /** `writeData`: name, type, hidden, in that order. */
    method WriteData(out: ObjectDataOutput)
      modifies out
      ensures out.items == old(out.items) + Encoding(name, fieldType, hidden)
    {
      out.WriteString(name);
      out.WriteObject(TypeObject(fieldType));
      out.WriteBoolean(hidden);
    }

    /**
     * `readData`: fills the fields in place, in the order `WriteData` wrote
     * them. A read that finds the wrong item stops the method.
     */
    method ReadData(input: ObjectDataInput) returns (failure: Option<Failure>)
      modifies this, input
      ensures failure.None? <==> Decode(old(input.remaining)).Ok?
      ensures Decode(old(input.remaining)).Ok? ==>
                var (n, t, h, rest) := Decode(old(input.remaining)).value;
                name == n && fieldType == t && hidden == h && input.remaining == rest
    {
      var n := input.ReadString();
      if n.Err? {
        return Some(n.failure);
      }
      name := n.value;
      var t := input.ReadType();
      if t.Err? {
        return Some(t.failure);
      }
      fieldType := t.value;
      var h := input.ReadBoolean();
      if h.Err? {
        return Some(h.failure);
      }
      hidden := h.value;
      failure := None;
    }
  }

  /** Structural equality, as `equals` decides it for two non-null fields. */
  predicate Same(a: TableField, b: TableField)
    reads a, b
  {
    a.runtimeClass == b.runtimeClass && a.name == b.name && a.fieldType == b.fieldType && a.hidden == b.hidden
  }

  lemma SameIsEquivalence(a: TableField, b: TableField, c: TableField)
    ensures Same(a, a)
    ensures Same(a, b) ==> Same(b, a)
    ensures Same(a, b) && Same(b, c) ==> Same(a, c)
  {
  }

  /** `31 * (31 * h(name) + h(type)) + (hidden ? 1 : 0)`, wrapped once at the end. */
  function FieldHash(stringHash: string -> int32, typeHash: QueryDataType -> int32, f: TableField): int32
    reads f
  {
    Wrap32(961 * stringHash(f.name) + 31 * typeHash(f.fieldType) + (if f.hidden then 1 else 0))
  }

  /** Fields that are equal hash equally, whatever the name and type hashes are. */
  lemma EqualFieldsHashEqually(stringHash: string -> int32, typeHash: QueryDataType -> int32,
                               a: TableField, b: TableField)
    requires Same(a, b)
    ensures FieldHash(stringHash, typeHash, a) == FieldHash(stringHash, typeHash, b)
  {
  }

  /** The items `WriteData` appends. */
  function Encoding(name: string, fieldType: QueryDataType, hidden: bool): seq<DataItem> {
    [StringItem(name), ObjectItem(TypeObject(fieldType)), BooleanItem(hidden)]
  }

  /** What `ReadData` takes from a stream: the three fields and the rest of the stream. */
  function Decode(items: seq<DataItem>): (r: Result<(string, QueryDataType, bool, seq<DataItem>)>)
    ensures r.Ok? ==> |r.value.3| + 3 == |items|
  {
    match DecodeString(items)
    case Err(f) => Err(f)
    case Ok((n, rest)) =>
      match DecodeObject(rest, SelectType)
      case Err(f) => Err(f)
      case Ok((t, rest')) =>
        match DecodeBoolean(rest')
        case Err(f) => Err(f)
        case Ok((h, rest'')) => Ok((n, t, h, rest''))
  }

  /** Reading what was written gives back the three fields and leaves the rest of the stream. */
  lemma DecodeEncoding(name: string, fieldType: QueryDataType, hidden: bool, rest: seq<DataItem>)
    ensures Decode(Encoding(name, fieldType, hidden) + rest) == Ok((name, fieldType, hidden, rest))
  {
    var items := Encoding(name, fieldType, hidden) + rest;
    assert items[1..][1..][1..] == rest;
  }

  /**
   * A field written to a stream and read into a blank instance of its class
   * equals the original, field by field.
   */
  method SerializationRoundTrip(f: TableField) returns (g: TableField)
    ensures Same(f, g)
  {
    var out := new ObjectDataOutput();
    f.WriteData(out);
    var input := new ObjectDataInput(out.items);
    g := new TableField.Blank(f.runtimeClass);
    DecodeEncoding(f.name, f.fieldType, f.hidden, []);
    assert out.items == Encoding(f.name, f.fieldType, f.hidden) + [];
    var failure := g.ReadData(input);
  }
}
