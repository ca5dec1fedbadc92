/**
 * The whole-object target (HazelcastObjectUpsertTarget.java).
 *
 * The key or value is one custom object. The only injector converts the
 * written value with the custom type's converter and stores the result in a
 * single slot; `Init` leaves the slot alone and `Conclude` returns it.
 */
module HazelcastObject {
  import opened Results
  import opened Values
  import opened SqlTypes

  /**
   * The converter a custom type registers (`customTypeConverter(type)` applied
   * to a value), which is not part of this model.
   */
  type CustomTypeConverter = (QueryDataType, Value) -> Result<Value>

  /** The one kind of injector: store the converted value. */
  datatype Injector = StoreConverted(dataType: QueryDataType)

  function TopLevelOnlyMessage(k: TypeKind): string {
    "TypeKind " + TypeKindName(k) + " does not support top-level custom types"
  }

  /**
   * `createInjector`: only a Java-class custom type can be written as a whole
   * object. The path plays no part in the decision.
   */
  function CreateInjector(path: Option<string>, dataType: QueryDataType): (r: Result<Injector>)
    ensures r.Ok? <==> dataType.objectTypeKind == JavaKind
    ensures r.Ok? ==> r.value.dataType == dataType
    ensures r.Err? ==> r.failure == QueryError(TopLevelOnlyMessage(dataType.objectTypeKind))
  {
    if dataType.objectTypeKind == JavaKind then Ok(StoreConverted(dataType))
    else Err(QueryError(TopLevelOnlyMessage(dataType.objectTypeKind)))
  }

  /** The slot after one injector call: the converted value, or unchanged when the converter fails. */
  function Store(convert: CustomTypeConverter, inj: Injector, v: Value, slot: Value): (r: (Value, Option<Failure>))
    ensures r.1.None? <==> convert(inj.dataType, v).Ok?
    ensures r.1.None? ==> r.0 == convert(inj.dataType, v).value
    ensures r.1.Some? ==> r.0 == slot && r.1.value == convert(inj.dataType, v).failure
  {
    match convert(inj.dataType, v)
    case Ok(o) => (o, None)
    case Err(f) => (slot, Some(f))
  }

  /** The slot after several injector calls, in order, stopping at the first failure. */
  function StoreAll(convert: CustomTypeConverter, inj: Injector, vs: seq<Value>, slot: Value): (Value, Option<Failure>)
    decreases |vs|
  {
    if vs == [] then (slot, None)
    else
      var (s, f) := Store(convert, inj, vs[0], slot);
      if f.Some? then (s, f) else StoreAll(convert, inj, vs[1..], s)
  }

  /** Of several successful writes, the last one wins, whatever the slot held before. */
  lemma {:induction false} LastWriteWins(convert: CustomTypeConverter, inj: Injector, vs: seq<Value>, slot: Value)
    requires vs != []
    requires forall i :: 0 <= i < |vs| ==> convert(inj.dataType, vs[i]).Ok?
    ensures StoreAll(convert, inj, vs, slot) == (convert(inj.dataType, vs[|vs| - 1]).value, None)
  {
    var s := Store(convert, inj, vs[0], slot).0;
    assert convert(inj.dataType, vs[0]).Ok?;
    if |vs| > 1 {
      assert forall i :: 0 <= i < |vs[1..]| ==> convert(inj.dataType, vs[1..][i]).Ok? by {
        forall i | 0 <= i < |vs[1..]| ensures convert(inj.dataType, vs[1..][i]).Ok? {
          assert vs[1..][i] == vs[i + 1];
        }
      }
      LastWriteWins(convert, inj, vs[1..], s);
      assert vs[1..][|vs[1..]| - 1] == vs[|vs| - 1];
    } else {
      assert vs[1..] == [];
    }
  }

  class HazelcastObjectUpsertTarget {
    const convert: CustomTypeConverter
    var obj: Value

    constructor (convert: CustomTypeConverter)
      ensures this.convert == convert && obj == JNull
    {
      this.convert := convert;
      obj := JNull;
    }

    /** Deliberately does nothing: the object of an earlier row stays until overwritten. */
    method Init()
      ensures unchanged(this)
    {
    }

    /** Replaces the stored object with the converted value. */
    method Inject(inj: Injector, v: Value) returns (failure: Option<Failure>)
      modifies this
      ensures (obj, failure) == Store(convert, inj, v, old(obj))
      ensures convert(inj.dataType, v).Ok? ==> obj == convert(inj.dataType, v).value && failure.None?
    {
      var (s, f) := Store(convert, inj, v, obj);
      obj, failure := s, f;
    }

    /** Returns the last stored object without clearing it. */
    method Conclude() returns (r: Value)
      ensures r == obj
    {
      r := obj;
    }
  }
}
