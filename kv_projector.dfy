/**
 * The key/value projector: it turns one row into a key object and a value
 * object by driving two upsert targets through `Init`, the column injectors
 * in column order, and `Conclude`, then applies the null policy.
 */
module KvProjectors {
  import opened Results
  import opened Values
  import opened SqlTypes
  import opened Serialization
  import opened Upsert

  /** A column of the row: where it goes, and its SQL type. */
  datatype Field = Field(path: QueryPath, dataType: QueryDataType)

  /** A column's precomputed injector, and whether it writes into the key. */
  datatype Column = Column(isKey: bool, injector: Injector)

  /** The error message for a null key (`__key`) or a null value (`this`). */
  function NullMessage(isKey: bool): (m: string)
    ensures isKey ==> m == "Cannot write NULL to '__key' field"
    ensures !isKey ==> m == "Cannot write NULL to 'this' field"
  {
    "Cannot write NULL to '" + (if isKey then KEY_NAME else VALUE_NAME) + "' field"
  }

  /** The target of a column's side. */
  function SideOf(isKey: bool, keyTarget: Target, valueTarget: Target): Target {
    if isKey then keyTarget else valueTarget
  }

  /** The injector the target of a field's side creates for it. */
  function InjectorFor(f: Field, keyTarget: Target, valueTarget: Target): Result<Injector> {
    CreateInjector(SideOf(f.path.isKey, keyTarget, valueTarget), f.path.path, f.dataType)
  }

  /**
   * One injector per field, created by the target of the field's side; the
   * first field whose injector cannot be created fails the projector.
   */
  function CreateColumns(fields: seq<Field>, keyTarget: Target, valueTarget: Target): (r: Result<seq<Column>>)
    ensures r.Ok? ==> |r.value| == |fields|
    ensures r.Ok? ==> forall i :: 0 <= i < |fields| ==>
              r.value[i].isKey == fields[i].path.isKey && InjectorFor(fields[i], keyTarget, valueTarget) == Ok(r.value[i].injector)
    ensures r.Err? ==> exists i :: 0 <= i < |fields| && InjectorFor(fields[i], keyTarget, valueTarget).Err?
  {
    if fields == [] then Ok([])
    else
      match InjectorFor(fields[0], keyTarget, valueTarget)
      case Err(e) => Err(e)
      case Ok(inj) =>
        match CreateColumns(fields[1..], keyTarget, valueTarget)
        case Err(e) =>
          ghost var j :| 0 <= j < |fields[1..]| && InjectorFor(fields[1..][j], keyTarget, valueTarget).Err?;
          assert fields[j + 1] == fields[1..][j];
          Err(e)
        case Ok(cols) =>
          assert forall i :: 1 <= i < |fields| ==> fields[i] == fields[1..][i - 1];
          Ok([Column(fields[0].path.isKey, inj)] + cols)
  }

  /** Both targets' scratch state while the injectors run, and the failure that stopped them. */
  datatype Progress = Progress(key: Scratch, value: Scratch, failure: Option<Failure>)

  /** Every column's injector comes from the target of its side. */
  predicate ColumnsMatch(keyTarget: Target, valueTarget: Target, columns: seq<Column>) {
    forall i :: 0 <= i < |columns| ==> Matches(SideOf(columns[i].isKey, keyTarget, valueTarget), columns[i].injector)
  }

  /** One column's write into the target of its side. */
  function Step(keyTarget: Target, valueTarget: Target, c: Column, v: Value, p: Progress): (r: Progress)
    requires Ready(keyTarget, p.key) && Ready(valueTarget, p.value)
    requires Matches(SideOf(c.isKey, keyTarget, valueTarget), c.injector)
    ensures Ready(keyTarget, r.key) && Ready(valueTarget, r.value)
  {
    if c.isKey then
      var (s, f) := InjectScratch(keyTarget, c.injector, v, p.key);
      Progress(s, p.value, f)
    else
      var (s, f) := InjectScratch(valueTarget, c.injector, v, p.value);
      Progress(p.key, s, f)
  }

  /** The injectors applied to the row in column order, stopping at the first failure. */
  function Apply(keyTarget: Target, valueTarget: Target, columns: seq<Column>, row: seq<Value>, start: Progress)
    : (r: Progress)
    requires |row| == |columns| && ColumnsMatch(keyTarget, valueTarget, columns)
    requires Ready(keyTarget, start.key) && Ready(valueTarget, start.value) && start.failure.None?
    ensures Ready(keyTarget, r.key) && Ready(valueTarget, r.value)
    decreases |columns|
  {
    if columns == [] then start
    else
      var n := |columns| - 1;
      var p := Apply(keyTarget, valueTarget, columns[..n], row[..n], start);
      if p.failure.Some? then p else Step(keyTarget, valueTarget, columns[n], row[n], p)
  }

  /** Once an injector has failed, the later columns change nothing. */
  lemma {:induction false} StoppedStaysStopped(keyTarget: Target, valueTarget: Target, columns: seq<Column>,
                                               row: seq<Value>, start: Progress, k: nat)
    requires |row| == |columns| && ColumnsMatch(keyTarget, valueTarget, columns)
    requires Ready(keyTarget, start.key) && Ready(valueTarget, start.value) && start.failure.None?
    requires k <= |columns|
    requires Apply(keyTarget, valueTarget, columns[..k], row[..k], start).failure.Some?
    ensures Apply(keyTarget, valueTarget, columns, row, start) == Apply(keyTarget, valueTarget, columns[..k], row[..k], start)
    decreases |columns| - k
  {
    if k < |columns| {
      var n := |columns| - 1;
      assert columns[..n][..k] == columns[..k] && row[..n][..k] == row[..k];
      StoppedStaysStopped(keyTarget, valueTarget, columns[..n], row[..n], start, k);
      assert Apply(keyTarget, valueTarget, columns[..n], row[..n], start).failure.Some?;
    } else {
      assert columns[..k] == columns && row[..k] == row;
    }
  }

  /** The prefix of one more column is the prefix followed by that column's write. */
  lemma ApplyOneMore(keyTarget: Target, valueTarget: Target, columns: seq<Column>, row: seq<Value>,
                     start: Progress, i: nat)
    requires |row| == |columns| && ColumnsMatch(keyTarget, valueTarget, columns)
    requires Ready(keyTarget, start.key) && Ready(valueTarget, start.value) && start.failure.None?
    requires i < |columns|
    requires Apply(keyTarget, valueTarget, columns[..i], row[..i], start).failure.None?
    ensures Apply(keyTarget, valueTarget, columns[..i + 1], row[..i + 1], start)
            == Step(keyTarget, valueTarget, columns[i], row[i], Apply(keyTarget, valueTarget, columns[..i], row[..i], start))
  {
    assert columns[..i + 1][..i] == columns[..i] && row[..i + 1][..i] == row[..i];
  }

  /** A projected row's result, and the scratch states it leaves both targets in. */
  datatype Projection = Projection(result: Result<(Concluded, Concluded)>, keyAfter: Scratch, valueAfter: Scratch)

  /**
   * `project(row)`: the initial scratch states are those before `Init` (the
   * whole-object target keeps its slot across `Init`). The injectors run in
   * column order, then the row is finished.
   */
  function ProjectSpec(keyTarget: Target, valueTarget: Target, columns: seq<Column>, failOnNulls: bool,
                       row: seq<Value>, keyBefore: Scratch, valueBefore: Scratch)
    : (r: Projection)
    requires |row| == |columns| && ColumnsMatch(keyTarget, valueTarget, columns)
    requires keyTarget.ObjectTarget? ==> keyBefore.SlotScratch?
    requires valueTarget.ObjectTarget? ==> valueBefore.SlotScratch?
    ensures r.result.Ok? ==>
              && Concludes(keyTarget, r.result.value.0, r.keyAfter)
              && Concludes(valueTarget, r.result.value.1, r.valueAfter)
  {
    Finish(keyTarget, valueTarget, failOnNulls,
           Apply(keyTarget, valueTarget, columns, row,
                 Progress(InitScratch(keyTarget, keyBefore), InitScratch(valueTarget, valueBefore), None)))
  }

  /**
   * The end of a row. An injector failure leaves both targets as the
   * injectors left them. Otherwise the key is concluded and checked before
   * the value is concluded, so a null key leaves the value target
   * unconcluded.
   */
  function Finish(keyTarget: Target, valueTarget: Target, failOnNulls: bool, p: Progress): (r: Projection)
    requires Ready(keyTarget, p.key) && Ready(valueTarget, p.value)
    ensures p.failure.Some? ==> r == Projection(Err(p.failure.value), p.key, p.value)
    ensures r.result.Ok? ==>
              && Concludes(keyTarget, r.result.value.0, r.keyAfter)
              && Concludes(valueTarget, r.result.value.1, r.valueAfter)
  {
    if p.failure.Some? then Projection(Err(p.failure.value), p.key, p.value)
    else
      var (key, keyAfter) := ConcludeScratch(keyTarget, p.key);
      if failOnNulls && IsNull(key) then Projection(Err(QueryError(NullMessage(true))), keyAfter, p.value)
      else
        var (value, valueAfter) := ConcludeScratch(valueTarget, p.value);
        if failOnNulls && IsNull(value) then Projection(Err(QueryError(NullMessage(false))), keyAfter, valueAfter)
        else Projection(Ok((key, value)), keyAfter, valueAfter)
  }

  /**
   * What a concluded target is left holding: a JSON or Compact target is
   * closed until the next `Init`, a slot target keeps the object it returned.
   */
  predicate Concludes(t: Target, c: Concluded, after: Scratch) {
    if t.JsonTarget? || t.CompactTarget? then !Ready(t, after) else c.Plain? && after == SlotScratch(c.v)
  }

  /**
   * Two rows through the same whole-object target: a row whose injectors
   * write nothing into the key yields the previous row's key again, because
   * `Init` keeps the slot that `Conclude` left behind.
   */
  lemma {:induction false} ObjectSlotCarriesOver(keyTarget: Target, valueTarget: Target, failOnNulls: bool,
                                                 first: seq<Value>, firstColumns: seq<Column>,
                                                 keyBefore: Scratch, valueBefore: Scratch)
    requires keyTarget.ObjectTarget? && valueTarget.ObjectTarget?
    requires keyBefore.SlotScratch? && valueBefore.SlotScratch?
    requires |first| == |firstColumns| && ColumnsMatch(keyTarget, valueTarget, firstColumns)
    requires ProjectSpec(keyTarget, valueTarget, firstColumns, failOnNulls, first, keyBefore, valueBefore).result.Ok?
    ensures var p1 := ProjectSpec(keyTarget, valueTarget, firstColumns, failOnNulls, first, keyBefore, valueBefore);
            ProjectSpec(keyTarget, valueTarget, [], failOnNulls, [], p1.keyAfter, p1.valueAfter) == p1
  {
  }

  /**
   * The null policy: with the flag set a success never holds a null, and a
   * null key is reported ahead of a null value; with the flag clear nulls
   * pass through and only an injector can fail the row.
   */
  lemma NullPolicy(keyTarget: Target, valueTarget: Target, columns: seq<Column>, failOnNulls: bool,
                   row: seq<Value>, keyBefore: Scratch, valueBefore: Scratch)
    requires |row| == |columns| && ColumnsMatch(keyTarget, valueTarget, columns)
    requires keyTarget.ObjectTarget? ==> keyBefore.SlotScratch?
    requires valueTarget.ObjectTarget? ==> valueBefore.SlotScratch?
    ensures var r := ProjectSpec(keyTarget, valueTarget, columns, failOnNulls, row, keyBefore, valueBefore).result;
            var p := Apply(keyTarget, valueTarget, columns, row,
                           Progress(InitScratch(keyTarget, keyBefore), InitScratch(valueTarget, valueBefore), None));
            && (failOnNulls && r.Ok? ==> !IsNull(r.value.0) && !IsNull(r.value.1))
            && (!failOnNulls ==> (r.Err? <==> p.failure.Some?))
            && (p.failure.None? && failOnNulls && IsNull(ConcludeScratch(keyTarget, p.key).0) ==>
                  r == Err(QueryError("Cannot write NULL to '__key' field")))
            && (p.failure.None? && !(failOnNulls && IsNull(ConcludeScratch(keyTarget, p.key).0)) ==>
                  (r.Err? <==> failOnNulls && IsNull(ConcludeScratch(valueTarget, p.value).0)))
  {
  }

  class KvProjector {
    const keyTarget: Target
    const valueTarget: Target
    const columns: seq<Column>
    const failOnNulls: bool

    ghost predicate Valid()
      reads Footprint(keyTarget), Footprint(valueTarget)
    {
      && Footprint(keyTarget) !! Footprint(valueTarget)
      && Upsert.Valid(keyTarget) && Upsert.Valid(valueTarget)
      && ColumnsMatch(keyTarget, valueTarget, columns)
    }

    constructor (keyTarget: Target, valueTarget: Target, columns: seq<Column>, failOnNulls: bool)
      ensures this.keyTarget == keyTarget && this.valueTarget == valueTarget
      ensures this.columns == columns && this.failOnNulls == failOnNulls
    {
      this.keyTarget := keyTarget;
      this.valueTarget := valueTarget;
      this.columns := columns;
      this.failOnNulls := failOnNulls;
    }

    /** The scratch states of both targets, with no failure. */
    function Current(): Progress
      reads Footprint(keyTarget), Footprint(valueTarget)
    {
      Progress(ScratchOf(keyTarget), ScratchOf(valueTarget), None)
    }

    /** Writes one column's value through its injector into the target of its side. */
    method InjectColumn(c: Column, v: Value) returns (failure: Option<Failure>)
      requires Valid() && Ready(keyTarget, ScratchOf(keyTarget)) && Ready(valueTarget, ScratchOf(valueTarget))
      requires Matches(SideOf(c.isKey, keyTarget, valueTarget), c.injector)
      modifies Footprint(keyTarget), Footprint(valueTarget)
      ensures Valid()
      ensures Step(keyTarget, valueTarget, c, v, old(Current())) == Progress(ScratchOf(keyTarget), ScratchOf(valueTarget), failure)
    {
      if c.isKey {
        failure := Inject(keyTarget, c.injector, v);
      } else {
        failure := Inject(valueTarget, c.injector, v);
      }
    }

    /** Projects one row, whose values come in column order. */
    method Project(row: seq<Value>) returns (r: Result<(Concluded, Concluded)>)
      requires Valid() && |row| == |columns|
      modifies Footprint(keyTarget), Footprint(valueTarget)
      ensures Valid()
      ensures var spec := ProjectSpec(keyTarget, valueTarget, columns, failOnNulls, row,
                                      old(ScratchOf(keyTarget)), old(ScratchOf(valueTarget)));
              && r == spec.result
              && ScratchOf(keyTarget) == spec.keyAfter && ScratchOf(valueTarget) == spec.valueAfter
    {
      ghost var keyBefore, valueBefore := ScratchOf(keyTarget), ScratchOf(valueTarget);
      Init(keyTarget);
      Init(valueTarget);
      ghost var start := Current();
      assert start == Progress(InitScratch(keyTarget, keyBefore), InitScratch(valueTarget, valueBefore), None);
      ghost var applied := Apply(keyTarget, valueTarget, columns, row, start);
      var i := 0;
      while i < |columns|
        invariant 0 <= i <= |columns|
        invariant Valid()
        invariant Apply(keyTarget, valueTarget, columns[..i], row[..i], start) == Current()
      {
        ApplyOneMore(keyTarget, valueTarget, columns, row, start, i);
        var failure := InjectColumn(columns[i], row[i]);
        if failure.Some? {
          StoppedStaysStopped(keyTarget, valueTarget, columns, row, start, i + 1);
          assert applied == Progress(ScratchOf(keyTarget), ScratchOf(valueTarget), failure);
          return Err(failure.value);
        }
        i := i + 1;
      }
      assert columns[..i] == columns && row[..i] == row;
      assert applied == Current();
      r := FinishRow();
    }

    /** Concludes the key, checks it, then concludes and checks the value. */
    method FinishRow() returns (r: Result<(Concluded, Concluded)>)
      requires Valid() && Ready(keyTarget, ScratchOf(keyTarget)) && Ready(valueTarget, ScratchOf(valueTarget))
      modifies Footprint(keyTarget), Footprint(valueTarget)
      ensures Valid()
      ensures var spec := Finish(keyTarget, valueTarget, failOnNulls, old(Current()));
              && r == spec.result
              && ScratchOf(keyTarget) == spec.keyAfter && ScratchOf(valueTarget) == spec.valueAfter
    {
      var key := Conclude(keyTarget);
      if failOnNulls && IsNull(key) {
        return Err(QueryError(NullMessage(true)));
      }
      var value := Conclude(valueTarget);
      if failOnNulls && IsNull(value) {
        return Err(QueryError(NullMessage(false)));
      }
      r := Ok((key, value));
    }
  }

  /** The test's columns: one INT field for the whole key, one for the whole value. */
  const INT_KEY_AND_VALUE: seq<Field> := [Field(KEY, INT), Field(VALUE, INT)]

  /** Builds the projector of the test fixtures over two converting targets. */
  method ConvertingProjector(keyConvert: Converter, valueConvert: Converter, failOnNulls: bool)
    returns (projector: KvProjector)
    ensures fresh(Footprint(projector.keyTarget)) && fresh(Footprint(projector.valueTarget))
    ensures projector.Valid() && projector.failOnNulls == failOnNulls && |projector.columns| == 2
    ensures projector.keyTarget.ConvertTarget? && projector.keyTarget.conv.convert == keyConvert
    ensures projector.valueTarget.ConvertTarget? && projector.valueTarget.conv.convert == valueConvert
    ensures projector.columns == [Column(true, ConvertInjector), Column(false, ConvertInjector)]
  {
    var k := new ConvertingTarget(keyConvert);
    var v := new ConvertingTarget(valueConvert);
    var keyTarget := ConvertTarget(k);
    var valueTarget := ConvertTarget(v);
    var columns := CreateColumns(INT_KEY_AND_VALUE, keyTarget, valueTarget);
    projector := new KvProjector(keyTarget, valueTarget, columns.value, failOnNulls);
  }

  /**
   * A row of two values projected through converting targets, one column per
   * side: the key is the key converter's result and the value the value
   * converter's, each checked for null in that order when the flag is set.
   */
  lemma {:induction false} ConvertingRow(keyTarget: Target, valueTarget: Target, failOnNulls: bool, a: Value, b: Value,
                                         keyBefore: Scratch, valueBefore: Scratch)
    requires keyTarget.ConvertTarget? && valueTarget.ConvertTarget?
    requires keyTarget.conv.convert(a).Ok? && valueTarget.conv.convert(b).Ok?
    ensures var key := keyTarget.conv.convert(a).value;
            var value := valueTarget.conv.convert(b).value;
            ProjectSpec(keyTarget, valueTarget, [Column(true, ConvertInjector), Column(false, ConvertInjector)],
                        failOnNulls, [a, b], keyBefore, valueBefore).result
            == if failOnNulls && key == JNull then Err(QueryError(NullMessage(true)))
               else if failOnNulls && value == JNull then Err(QueryError(NullMessage(false)))
               else Ok((Plain(key), Plain(value)))
  {
    var columns := [Column(true, ConvertInjector), Column(false, ConvertInjector)];
    var row := [a, b];
    var start := Progress(SlotScratch(JNull), SlotScratch(JNull), None);
    assert InitScratch(keyTarget, keyBefore) == SlotScratch(JNull);
    assert InitScratch(valueTarget, valueBefore) == SlotScratch(JNull);
    assert columns[..1][..0] == [] && row[..1][..0] == [];
    assert Apply(keyTarget, valueTarget, columns[..1][..0], row[..1][..0], start) == start;
    var afterKey := Progress(SlotScratch(keyTarget.conv.convert(a).value), SlotScratch(JNull), None);
    assert columns[..1] == [Column(true, ConvertInjector)] && row[..1] == [a];
    assert Apply(keyTarget, valueTarget, columns[..1], row[..1], start) == afterKey;
    assert columns[..|columns| - 1] == columns[..1] && row[..|row| - 1] == row[..1];
    assert Apply(keyTarget, valueTarget, columns, row, start)
           == Progress(SlotScratch(keyTarget.conv.convert(a).value), SlotScratch(valueTarget.conv.convert(b).value), None);
  }

  /** Doubling targets on both sides project the row (1, 2) to key 2 and value 4. */
  method DoublingRow() returns (r: Result<(Concluded, Concluded)>)
    ensures r == Ok((Plain(JInteger(2)), Plain(JInteger(4))))
  {
    var projector := ConvertingProjector(Doubling, Doubling, false);
    ConvertingRow(projector.keyTarget, projector.valueTarget, false, JInteger(1), JInteger(2),
                  ScratchOf(projector.keyTarget), ScratchOf(projector.valueTarget));
    r := projector.Project([JInteger(1), JInteger(2)]);
  }

  /** Without the flag, targets that conclude to null give a null key and a null value. */
  method NullsAllowed() returns (r: Result<(Concluded, Concluded)>)
    ensures r == Ok((Plain(JNull), Plain(JNull)))
  {
    var projector := ConvertingProjector(AlwaysNull, AlwaysNull, false);
    ConvertingRow(projector.keyTarget, projector.valueTarget, false, JInteger(1), JInteger(2),
                  ScratchOf(projector.keyTarget), ScratchOf(projector.valueTarget));
    r := projector.Project([JInteger(1), JInteger(2)]);
  }

  /** With the flag, a null key is rejected. */
  method NullKeyRejected() returns (r: Result<(Concluded, Concluded)>)
    ensures r == Err(QueryError("Cannot write NULL to '__key' field"))
  {
    var projector := ConvertingProjector(AlwaysNull, Doubling, true);
    ConvertingRow(projector.keyTarget, projector.valueTarget, true, JInteger(1), JInteger(2),
                  ScratchOf(projector.keyTarget), ScratchOf(projector.valueTarget));
    r := projector.Project([JInteger(1), JInteger(2)]);
  }

  /** With the flag, a non-null key and a null value is rejected for the value. */
  method NullValueRejected() returns (r: Result<(Concluded, Concluded)>)
    ensures r == Err(QueryError("Cannot write NULL to 'this' field"))
  {
    var projector := ConvertingProjector(Doubling, AlwaysNull, true);
    ConvertingRow(projector.keyTarget, projector.valueTarget, true, JInteger(1), JInteger(2),
                  ScratchOf(projector.keyTarget), ScratchOf(projector.valueTarget));
    r := projector.Project([JInteger(1), JInteger(2)]);
  }

  /**
   * The serialisable factory of projectors: the fields' paths and types, the
   * descriptors of both targets and the null flag.
   */
  datatype Supplier = Supplier(paths: seq<QueryPath>, types: seq<QueryDataType>,
                               keyDescriptor: UpsertTargetDescriptor, valueDescriptor: UpsertTargetDescriptor,
                               failOnNulls: bool)

  /** `KvProjector.supplier(fields, ...)`: the fields split into their paths and their types. */
  function MakeSupplier(fields: seq<Field>, keyDescriptor: UpsertTargetDescriptor,
                        valueDescriptor: UpsertTargetDescriptor, failOnNulls: bool): (s: Supplier)
    ensures |s.paths| == |s.types| == |fields|
    ensures forall i :: 0 <= i < |fields| ==> s.paths[i] == fields[i].path && s.types[i] == fields[i].dataType
    ensures s.keyDescriptor == keyDescriptor && s.valueDescriptor == valueDescriptor && s.failOnNulls == failOnNulls
  {
    Supplier(seq(|fields|, i requires 0 <= i < |fields| => fields[i].path),
             seq(|fields|, i requires 0 <= i < |fields| => fields[i].dataType),
             keyDescriptor, valueDescriptor, failOnNulls)
  }

  /** The supplier's stream: each array with its length first, then the descriptors and the flag. */
  function EncodeSupplier(s: Supplier): (e: seq<DataItem>)
    ensures |e| == |s.paths| + |s.types| + 5
    ensures e[0] == IntItem(|s.paths|) && e[|e| - 1] == BooleanItem(s.failOnNulls)
  {
    [IntItem(|s.paths|)] + EncodeObjects(s.paths, WrapPath)
    + [IntItem(|s.types|)] + EncodeObjects(s.types, WrapType)
    + [ObjectItem(DescriptorObject(s.keyDescriptor)), ObjectItem(DescriptorObject(s.valueDescriptor)),
       BooleanItem(s.failOnNulls)]
  }

  /** Reads an array length, which must not be negative. */
  function DecodeLength(items: seq<DataItem>): (r: Result<(nat, seq<DataItem>)>)
    ensures r.Ok? <==> items != [] && items[0].IntItem? && items[0].i >= 0
    ensures r.Ok? ==> r.value == (items[0].i, items[1..])
  {
    if items != [] && items[0].IntItem? && items[0].i >= 0 then Ok((items[0].i, items[1..]))
    else Err(MalformedStream)
  }

  /** Reads an array: its length, then that many objects. */
  function DecodeArray<T>(items: seq<DataItem>, select: StreamObject -> Option<T>): (r: Result<(seq<T>, seq<DataItem>)>)
    ensures r.Ok? ==> |r.value.1| + |r.value.0| + 1 == |items|
  {
    var (n, rest) :- DecodeLength(items);
    DecodeObjects(rest, n, select)
  }

  /** Reads a supplier from the front of a stream and hands back the items after it. */
  function DecodeSupplier(items: seq<DataItem>): (r: Result<(Supplier, seq<DataItem>)>)
    ensures r.Ok? ==> |r.value.1| + |r.value.0.paths| + |r.value.0.types| + 5 == |items|
  {
    var (paths, r2) :- DecodeArray(items, SelectPath);
    var (types, r4) :- DecodeArray(r2, SelectType);
    var (kd, r5) :- DecodeObject(r4, SelectDescriptor);
    var (vd, r6) :- DecodeObject(r5, SelectDescriptor);
    var (flag, r7) :- DecodeBoolean(r6);
    Ok((Supplier(paths, types, kd, vd, flag), r7))
  }

  /** A supplier read back from its own stream equals the original field by field. */
  lemma SupplierRoundTrip(s: Supplier, rest: seq<DataItem>)
    ensures DecodeSupplier(EncodeSupplier(s) + rest) == Ok((s, rest))
  {
    var tail := [ObjectItem(DescriptorObject(s.keyDescriptor)), ObjectItem(DescriptorObject(s.valueDescriptor)),
                 BooleanItem(s.failOnNulls)];
    var r3 := EncodeObjects(s.types, WrapType) + (tail + rest);
    var r2 := [IntItem(|s.types|)] + r3;
    var r1 := EncodeObjects(s.paths, WrapPath) + r2;
    var items := [IntItem(|s.paths|)] + r1;
    Reassemble(s, items, r1, r2, r3, tail, rest);
    ObjectsRoundTrip(s.paths, WrapPath, SelectPath, r2);
    ObjectsRoundTrip(s.types, WrapType, SelectType, tail + rest);
    DecodeFromPieces(s, items, r1, r2, r3, tail, rest);
  }

  /** A stream made of a supplier's pieces, in order, reads back as that supplier. */
  lemma DecodeFromPieces(s: Supplier, items: seq<DataItem>, r1: seq<DataItem>, r2: seq<DataItem>, r3: seq<DataItem>,
                         tail: seq<DataItem>, rest: seq<DataItem>)
    requires tail == [ObjectItem(DescriptorObject(s.keyDescriptor)), ObjectItem(DescriptorObject(s.valueDescriptor)),
                      BooleanItem(s.failOnNulls)]
    requires items == [IntItem(|s.paths|)] + r1 && DecodeObjects(r1, |s.paths|, SelectPath) == Ok((s.paths, r2))
    requires r2 == [IntItem(|s.types|)] + r3 && DecodeObjects(r3, |s.types|, SelectType) == Ok((s.types, tail + rest))
    ensures DecodeSupplier(items) == Ok((s, rest))
  {
    assert DecodeLength(items) == Ok((|s.paths|, r1));
    assert DecodeArray(items, SelectPath) == Ok((s.paths, r2));
    assert DecodeLength(r2) == Ok((|s.types|, r3));
    assert DecodeArray(r2, SelectType) == Ok((s.types, tail + rest));
    var r6 := [BooleanItem(s.failOnNulls)] + rest;
    var r5 := [ObjectItem(DescriptorObject(s.valueDescriptor))] + r6;
    assert tail + rest == [ObjectItem(DescriptorObject(s.keyDescriptor))] + r5;
    assert DecodeObject(tail + rest, SelectDescriptor) == Ok((s.keyDescriptor, r5));
    assert DecodeObject(r5, SelectDescriptor) == Ok((s.valueDescriptor, r6));
    assert DecodeBoolean(r6) == Ok((s.failOnNulls, rest));
  }


  /**
   * The other direction: whatever stream a supplier is read from, that
   * supplier written again gives back exactly the items it consumed.
   */
  lemma SupplierStreamsAreCanonical(items: seq<DataItem>)
    requires DecodeSupplier(items).Ok?
    ensures EncodeSupplier(DecodeSupplier(items).value.0) + DecodeSupplier(items).value.1 == items
  {
    var s, r1, r2, r3, tail, rest := SupplierPieces(items);
    DecodedObjectsReencode(r1, |s.paths|, SelectPath, WrapPath);
    DecodedObjectsReencode(r3, |s.types|, SelectType, WrapType);
    Reassemble(s, items, r1, r2, r3, tail, rest);
  }

  /** The pieces a successful read takes a supplier's stream apart into. */
  lemma SupplierPieces(items: seq<DataItem>)
    returns (s: Supplier, r1: seq<DataItem>, r2: seq<DataItem>, r3: seq<DataItem>, tail: seq<DataItem>, rest: seq<DataItem>)
    requires DecodeSupplier(items).Ok?
    ensures DecodeSupplier(items) == Ok((s, rest))
    ensures tail == [ObjectItem(DescriptorObject(s.keyDescriptor)), ObjectItem(DescriptorObject(s.valueDescriptor)),
                     BooleanItem(s.failOnNulls)]
    ensures items == [IntItem(|s.paths|)] + r1 && DecodeObjects(r1, |s.paths|, SelectPath) == Ok((s.paths, r2))
    ensures r2 == [IntItem(|s.types|)] + r3 && DecodeObjects(r3, |s.types|, SelectType) == Ok((s.types, tail + rest))
  {
    var np := DecodeLength(items).value.0;
    r1 := DecodeLength(items).value.1;
    var paths := DecodeObjects(r1, np, SelectPath).value.0;
    r2 := DecodeObjects(r1, np, SelectPath).value.1;
    var nt := DecodeLength(r2).value.0;
    r3 := DecodeLength(r2).value.1;
    var types := DecodeObjects(r3, nt, SelectType).value.0;
    var r4 := DecodeObjects(r3, nt, SelectType).value.1;
    var (kd, x5) := DecodeObject(r4, SelectDescriptor).value;
    var (vd, x6) := DecodeObject(x5, SelectDescriptor).value;
    var (flag, x7) := DecodeBoolean(x6).value;
    s := Supplier(paths, types, kd, vd, flag);
    rest := x7;
    tail := [ObjectItem(DescriptorObject(kd)), ObjectItem(DescriptorObject(vd)), BooleanItem(flag)];
    assert r4 == tail + rest;
  }

  /** The supplier's stream put back together from the pieces a read took apart. */
  lemma Reassemble(s: Supplier, items: seq<DataItem>, r1: seq<DataItem>, r2: seq<DataItem>, r3: seq<DataItem>,
                   tail: seq<DataItem>, rest: seq<DataItem>)
    requires tail == [ObjectItem(DescriptorObject(s.keyDescriptor)), ObjectItem(DescriptorObject(s.valueDescriptor)),
                      BooleanItem(s.failOnNulls)]
    requires items == [IntItem(|s.paths|)] + r1 && r1 == EncodeObjects(s.paths, WrapPath) + r2
    requires r2 == [IntItem(|s.types|)] + r3 && r3 == EncodeObjects(s.types, WrapType) + (tail + rest)
    ensures EncodeSupplier(s) + rest == items
  {
    var pathItems, typeItems := EncodeObjects(s.paths, WrapPath), EncodeObjects(s.types, WrapType);
    assert EncodeSupplier(s) == [IntItem(|s.paths|)] + pathItems + [IntItem(|s.types|)] + typeItems + tail;
    SplitFive([IntItem(|s.paths|)], pathItems, [IntItem(|s.types|)], typeItems, tail, rest);
  }

  /** Concatenation regrouped to the right. */
  lemma SplitFive<T>(a: seq<T>, b: seq<T>, c: seq<T>, d: seq<T>, e: seq<T>, f: seq<T>)
    ensures a + b + c + d + e + f == a + (b + (c + (d + (e + f))))
  {
  }
}
