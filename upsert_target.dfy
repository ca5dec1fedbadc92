/**
 * The upsert-target interface: every target is driven through the same
 * cycle, `Init`, any number of injector calls, `Conclude`, and hands out
 * injectors built once ahead of the rows.
 *
 * `Target` is the closed set of implementations; the dispatching methods
 * below are the interface. Each method is specified by a pure transition on
 * `Scratch`, the target's per-row state as a value, so that a sequence of
 * calls (one projected row) can be stated as a function.
 */
module Upsert {
  import opened Results
  import opened Values
  import opened SqlTypes
  import Json
  import CompactFormat
  import HazelcastObject

  /** A converter of the whole value, as a test double supplies it. */
  type Converter = Value -> Result<Value>

  /**
   * A target built on a single converter of the whole value, as the
   * KvProjectorTest doubles extend the base class: each write stores the
   * converted value, `Conclude` returns it.
   */
  class ConvertingTarget {
    const convert: Converter
    var slot: Value

    constructor (convert: Converter)
      ensures this.convert == convert && slot == JNull
    {
      this.convert := convert;
      slot := JNull;
    }

    method Init()
      modifies this
      ensures slot == JNull
    {
      slot := JNull;
    }

    method Inject(v: Value) returns (failure: Option<Failure>)
      modifies this
      ensures convert(v).Ok? ==> slot == convert(v).value && failure.None?
      ensures convert(v).Err? ==> slot == old(slot) && failure == Some(convert(v).failure)
    {
      match convert(v)
      case Ok(o) =>
        slot := o;
        failure := None;
      case Err(f) =>
        failure := Some(f);
    }

    method Conclude() returns (r: Value)
      ensures r == slot
    {
      r := slot;
    }
  }

  /** `MultiplyingTarget`'s converter: `(int) value * 2` in Java `int` arithmetic. */
  function Doubling(v: Value): Result<Value> {
    match v
    case JInteger(x) => Ok(JInteger(Wrap32(2 * x)))
    case JNull => Err(NullUnboxed)
    case _ => Err(CastFailed("Integer"))
  }

  /** `NullTarget`'s converter: every value becomes null. */
  function AlwaysNull(v: Value): Result<Value> {
    Ok(JNull)
  }

  /** Both test converters are defined on every `Integer`; doubling is exact below 2^30 in magnitude. */
  lemma TestConvertersTotal(x: int32)
    ensures Doubling(JInteger(x)).Ok? && Doubling(JInteger(x)).value.JInteger?
    ensures -0x4000_0000 <= x < 0x4000_0000 ==> Doubling(JInteger(x)) == Ok(JInteger(2 * x))
    ensures AlwaysNull(JInteger(x)) == Ok(JNull)
  {
  }

  datatype Target =
    | JsonTarget(json: Json.JsonUpsertTarget)
    | CompactTarget(compact: CompactFormat.CompactUpsertTarget)
    | ObjectTarget(whole: HazelcastObject.HazelcastObjectUpsertTarget)
    | ConvertTarget(conv: ConvertingTarget)

  datatype Injector =
    | JsonInjector(j: Json.Injector)
    | CompactInjector(c: CompactFormat.Injector)
    | ObjectInjector(o: HazelcastObject.Injector)
    | ConvertInjector

  /** What `Conclude` hands to the storage layer. */
  datatype Concluded =
    | JsonBytes(tokens: seq<Json.Token>)
    | Record(record: CompactFormat.GenericRecord)
    | Plain(v: Value)

  predicate IsNull(c: Concluded) {
    c == Plain(JNull)
  }

  /** The objects a target's methods may change. */
  function Footprint(t: Target): set<object> {
    match t
    case JsonTarget(j) => {j, j.baos}
    case CompactTarget(c) => {c}
    case ObjectTarget(o) => {o}
    case ConvertTarget(c) => {c}
  }

  ghost predicate Valid(t: Target)
    reads Footprint(t)
  {
    t.JsonTarget? ==> t.json.Valid()
  }

  /** `createInjector(path, type)` of the target. */
  function CreateInjector(t: Target, path: Option<string>, dataType: QueryDataType): (r: Result<Injector>)
    ensures r.Ok? ==> Matches(t, r.value)
  {
    match t
    case JsonTarget(_) =>
      (match Json.CreateInjector(path, dataType)
       case Ok(i) => Ok(JsonInjector(i))
       case Err(f) => Err(f))
    case CompactTarget(c) =>
      (match CompactFormat.CreateInjector(c.schema, path, dataType)
       case Ok(i) => Ok(CompactInjector(i))
       case Err(f) => Err(f))
    case ObjectTarget(_) =>
      (match HazelcastObject.CreateInjector(path, dataType)
       case Ok(i) => Ok(ObjectInjector(i))
       case Err(f) => Err(f))
    case ConvertTarget(_) => Ok(ConvertInjector)
  }

  /** An injector made by a target of the same implementation. */
  predicate Matches(t: Target, inj: Injector) {
    match t
    case JsonTarget(_) => inj.JsonInjector?
    case CompactTarget(_) => inj.CompactInjector?
    case ObjectTarget(_) => inj.ObjectInjector?
    case ConvertTarget(_) => inj.ConvertInjector?
  }

  /** A target's per-row state as a value. */
  datatype Scratch =
    | JsonScratch(open: bool, buffer: seq<Json.Token>)
    | CompactScratch(builder: Option<map<string, CompactFormat.FieldValue>>)
    | SlotScratch(slot: Value)

  function ScratchOf(t: Target): Scratch
    reads Footprint(t)
  {
    match t
    case JsonTarget(j) => JsonScratch(j.state == Json.Accumulating, j.baos.contents)
    case CompactTarget(c) => CompactScratch(c.record)
    case ObjectTarget(o) => SlotScratch(o.obj)
    case ConvertTarget(c) => SlotScratch(c.slot)
  }

  /** The scratch of this implementation, with a generator or builder open where it needs one. */
  predicate Ready(t: Target, s: Scratch) {
    match t
    case JsonTarget(_) => s.JsonScratch? && s.open
    case CompactTarget(_) => s.CompactScratch? && s.builder.Some?
    case ObjectTarget(_) => s.SlotScratch?
    case ConvertTarget(_) => s.SlotScratch?
  }

  /** `init`: JSON and Compact start afresh, the whole-object slot is kept, the converting slot cleared. */
  function InitScratch(t: Target, s: Scratch): (r: Scratch)
    requires t.ObjectTarget? ==> s.SlotScratch?
    ensures Ready(t, r)
  {
    match t
    case JsonTarget(_) => JsonScratch(true, [Json.StartObject])
    case CompactTarget(_) => CompactScratch(Some(map[]))
    case ObjectTarget(_) => s
    case ConvertTarget(_) => SlotScratch(JNull)
  }

  /** One injector call; the scratch stays ready whatever happens. */
  function InjectScratch(t: Target, inj: Injector, v: Value, s: Scratch): (r: (Scratch, Option<Failure>))
    requires Ready(t, s) && Matches(t, inj)
    ensures Ready(t, r.0)
  {
    match t
    case JsonTarget(j) =>
      var e := Json.Emit(j.coercions, inj.j, v);
      (JsonScratch(true, s.buffer + e.tokens), e.failure)
    case CompactTarget(c) =>
      (match CompactFormat.Set(c.convertRow, inj.c, v, s.builder.value)
       case Ok(fields) => (CompactScratch(Some(fields)), None)
       case Err(f) => (s, Some(f)))
    case ObjectTarget(o) =>
      var (slot, f) := HazelcastObject.Store(o.convert, inj.o, v, s.slot);
      (SlotScratch(slot), f)
    case ConvertTarget(c) =>
      (match c.convert(v)
       case Ok(x) => (SlotScratch(x), None)
       case Err(f) => (s, Some(f)))
  }

  /** `conclude`: the finished object, and the scratch it leaves behind. */
  function ConcludeScratch(t: Target, s: Scratch): (r: (Concluded, Scratch))
    requires Ready(t, s)
    ensures t.JsonTarget? ==> r.0.JsonBytes? && !Ready(t, r.1)
    ensures t.CompactTarget? ==> r.0.Record? && !Ready(t, r.1)
    ensures t.ObjectTarget? || t.ConvertTarget? ==> r == (Plain(s.slot), s)
  {
    match t
    case JsonTarget(_) => (JsonBytes(s.buffer + [Json.EndObject]), JsonScratch(false, s.buffer + [Json.EndObject]))
    case CompactTarget(c) => (Record(CompactFormat.GenericRecord(c.schema, s.builder.value)), CompactScratch(None))
    case ObjectTarget(_) => (Plain(s.slot), s)
    case ConvertTarget(_) => (Plain(s.slot), s)
  }

  method Init(t: Target)
    requires Valid(t)
    modifies Footprint(t)
    ensures Valid(t)
    ensures ScratchOf(t) == InitScratch(t, old(ScratchOf(t)))
  {
    match t
    case JsonTarget(j) => j.Init();
    case CompactTarget(c) => c.Init();
    case ObjectTarget(o) => o.Init();
    case ConvertTarget(c) => c.Init();
  }

  method Inject(t: Target, inj: Injector, v: Value) returns (failure: Option<Failure>)
    requires Valid(t) && Ready(t, ScratchOf(t)) && Matches(t, inj)
    modifies Footprint(t)
    ensures Valid(t)
    ensures (ScratchOf(t), failure) == InjectScratch(t, inj, v, old(ScratchOf(t)))
  {
    match t
    case JsonTarget(j) => failure := j.Inject(inj.j, v);
    case CompactTarget(c) => failure := c.Inject(inj.c, v);
    case ObjectTarget(o) => failure := o.Inject(inj.o, v);
    case ConvertTarget(c) => failure := c.Inject(v);
  }

  method Conclude(t: Target) returns (r: Concluded)
    requires Valid(t) && Ready(t, ScratchOf(t))
    modifies Footprint(t)
    ensures Valid(t)
    ensures (r, ScratchOf(t)) == ConcludeScratch(t, old(ScratchOf(t)))
  {
    match t
    case JsonTarget(j) =>
      var bytes := j.Conclude();
      r := JsonBytes(bytes);
    case CompactTarget(c) =>
      var record := c.Conclude();
      r := Record(record);
    case ObjectTarget(o) =>
      var v := o.Conclude();
      r := Plain(v);
    case ConvertTarget(c) =>
      var v := c.Conclude();
      r := Plain(v);
  }
}
