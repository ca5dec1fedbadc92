/**
 * Object data streams, as sequences of typed items.
 *
 * A `DataSerializable` writes its fields one call at a time and reads them
 * back in the same order. The stream is modelled by the items those calls
 * produce; the byte encoding under them is not part of this model.
 */
module Serialization {
  import opened Results
  import opened SqlTypes

  /** An object written with `writeObject`. */
  datatype StreamObject =
    | PathObject(path: QueryPath)
    | TypeObject(dataType: QueryDataType)
    | DescriptorObject(descriptor: UpsertTargetDescriptor)

  /** One item of an object data stream. */
  datatype DataItem =
    | StringItem(s: string)
    | BooleanItem(b: bool)
    | IntItem(i: int)
    | ObjectItem(o: StreamObject)

  class ObjectDataOutput {
    var items: seq<DataItem>

    constructor ()
      ensures items == []
    {
      items := [];
    }

    method WriteString(s: string)
      modifies this
      ensures items == old(items) + [StringItem(s)]
    {
      items := items + [StringItem(s)];
    }

    method WriteObject(o: StreamObject)
      modifies this
      ensures items == old(items) + [ObjectItem(o)]
    {
      items := items + [ObjectItem(o)];
    }

    method WriteBoolean(b: bool)
      modifies this
      ensures items == old(items) + [BooleanItem(b)]
    {
      items := items + [BooleanItem(b)];
    }
  }

  /** Reads a string; anything else where a string is expected is a malformed stream. */
  function DecodeString(items: seq<DataItem>): (r: Result<(string, seq<DataItem>)>)
    ensures r.Ok? <==> items != [] && items[0].StringItem?
    ensures r.Ok? ==> r.value.1 == items[1..]
  {
    if items != [] && items[0].StringItem? then Ok((items[0].s, items[1..])) else Err(MalformedStream)
  }

  /** Reads a boolean. */
  function DecodeBoolean(items: seq<DataItem>): (r: Result<(bool, seq<DataItem>)>)
    ensures r.Ok? <==> items != [] && items[0].BooleanItem?
    ensures r.Ok? ==> r.value.1 == items[1..]
  {
    if items != [] && items[0].BooleanItem? then Ok((items[0].b, items[1..])) else Err(MalformedStream)
  }

  /** Reads an object and narrows it with `select`, which rejects an object of another class. */
  function DecodeObject<T>(items: seq<DataItem>, select: StreamObject -> Option<T>): (r: Result<(T, seq<DataItem>)>)
    ensures r.Ok? <==> items != [] && items[0].ObjectItem? && select(items[0].o).Some?
    ensures r.Ok? ==> r.value.1 == items[1..]
  {
    if items != [] && items[0].ObjectItem? && select(items[0].o).Some? then
      Ok((select(items[0].o).value, items[1..]))
    else Err(MalformedStream)
  }

  function SelectType(o: StreamObject): Option<QueryDataType> {
    if o.TypeObject? then Some(o.dataType) else None
  }

  function SelectPath(o: StreamObject): Option<QueryPath> {
    if o.PathObject? then Some(o.path) else None
  }

  function SelectDescriptor(o: StreamObject): Option<UpsertTargetDescriptor> {
    if o.DescriptorObject? then Some(o.descriptor) else None
  }

  function WrapPath(p: QueryPath): StreamObject {
    PathObject(p)
  }

  function WrapType(t: QueryDataType): StreamObject {
    TypeObject(t)
  }

  /** Each object of an array, one `writeObject` after another. */
  function EncodeObjects<T>(xs: seq<T>, wrap: T -> StreamObject): (e: seq<DataItem>)
    ensures |e| == |xs| && forall i :: 0 <= i < |xs| ==> e[i] == ObjectItem(wrap(xs[i]))
  {
    if xs == [] then [] else [ObjectItem(wrap(xs[0]))] + EncodeObjects(xs[1..], wrap)
  }

  /** Reads `n` objects, all of which `select` must accept. */
  function DecodeObjects<T>(items: seq<DataItem>, n: nat, select: StreamObject -> Option<T>)
    : (r: Result<(seq<T>, seq<DataItem>)>)
    ensures r.Ok? ==> |r.value.0| == n
    ensures r.Ok? ==> |r.value.1| + n == |items|
    decreases n
  {
    if n == 0 then Ok(([], items))
    else
      match DecodeObject(items, select)
      case Err(f) => Err(f)
      case Ok((x, rest)) =>
        match DecodeObjects(rest, n - 1, select)
        case Err(f) => Err(f)
        case Ok((xs, rest')) =>
          Ok(([x] + xs, rest'))
  }

  /**
   * The converse of the round trip: objects read from a stream, written
   * again, give back exactly the items they were read from.
   */
  lemma {:induction false} DecodedObjectsReencode<T>(items: seq<DataItem>, n: nat, select: StreamObject -> Option<T>,
                                                     wrap: T -> StreamObject)
    requires forall o :: select(o).Some? ==> wrap(select(o).value) == o
    requires DecodeObjects(items, n, select).Ok?
    ensures EncodeObjects(DecodeObjects(items, n, select).value.0, wrap) + DecodeObjects(items, n, select).value.1 == items
    decreases n
  {
    if n > 0 {
      var (x, rest) := DecodeObject(items, select).value;
      DecodedObjectsReencode(rest, n - 1, select, wrap);
      var (xs, rest') := DecodeObjects(rest, n - 1, select).value;
      assert DecodeObjects(items, n, select).value == ([x] + xs, rest');
      assert ([x] + xs)[1..] == xs;
      assert wrap(x) == items[0].o;
    }
  }

  /** Reading back an array of objects gives the array, and leaves what followed it. */
  lemma {:induction false} ObjectsRoundTrip<T>(xs: seq<T>, wrap: T -> StreamObject, select: StreamObject -> Option<T>,
                                               rest: seq<DataItem>)
    requires forall x :: select(wrap(x)) == Some(x)
    ensures DecodeObjects(EncodeObjects(xs, wrap) + rest, |xs|, select) == Ok((xs, rest))
  {
    if xs != [] {
      var items := EncodeObjects(xs, wrap) + rest;
      assert items == [ObjectItem(wrap(xs[0]))] + (EncodeObjects(xs[1..], wrap) + rest);
      assert select(wrap(xs[0])) == Some(xs[0]);
      assert DecodeObject(items, select) == Ok((xs[0], EncodeObjects(xs[1..], wrap) + rest));
      ObjectsRoundTrip(xs[1..], wrap, select, rest);
      assert [xs[0]] + xs[1..] == xs;
    } else {
      assert EncodeObjects(xs, wrap) + rest == rest;
    }
  }

  /** A reader over a finished stream; each read consumes the item it returns. */
  class ObjectDataInput {
    var remaining: seq<DataItem>

    constructor (items: seq<DataItem>)
      ensures remaining == items
    {
      remaining := items;
    }

    method ReadString() returns (r: Result<string>)
      modifies this
      ensures DecodeString(old(remaining)).Ok? ==>
                r == Ok(DecodeString(old(remaining)).value.0) && remaining == DecodeString(old(remaining)).value.1
      ensures DecodeString(old(remaining)).Err? ==> r == Err(MalformedStream) && remaining == old(remaining)
    {
      match DecodeString(remaining)
      case Ok((s, rest)) =>
        r := Ok(s);
        remaining := rest;
      case Err(f) =>
        r := Err(f);
    }

    method ReadType() returns (r: Result<QueryDataType>)
      modifies this
      ensures DecodeObject(old(remaining), SelectType).Ok? ==>
                && r == Ok(DecodeObject(old(remaining), SelectType).value.0)
                && remaining == DecodeObject(old(remaining), SelectType).value.1
      ensures DecodeObject(old(remaining), SelectType).Err? ==> r == Err(MalformedStream) && remaining == old(remaining)
    {
      match DecodeObject(remaining, SelectType)
      case Ok((t, rest)) =>
        r := Ok(t);
        remaining := rest;
      case Err(f) =>
        r := Err(f);
    }

    method ReadBoolean() returns (r: Result<bool>)
      modifies this
      ensures DecodeBoolean(old(remaining)).Ok? ==>
                r == Ok(DecodeBoolean(old(remaining)).value.0) && remaining == DecodeBoolean(old(remaining)).value.1
      ensures DecodeBoolean(old(remaining)).Err? ==> r == Err(MalformedStream) && remaining == old(remaining)
    {
      match DecodeBoolean(remaining)
      case Ok((b, rest)) =>
        r := Ok(b);
        remaining := rest;
      case Err(f) =>
        r := Err(f);
    }
  }
}
