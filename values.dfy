/**
 * The Java values that reach an injector, and Java's fixed-width integers.
 *
 * Floating-point numbers, decimals and temporal values are opaque here: the
 * model moves them around and never computes with them.
 */
module Values {

  type int8 = x: int | -0x80 <= x < 0x80
  type int16 = x: int | -0x8000 <= x < 0x8000
  type int32 = x: int | -0x8000_0000 <= x < 0x8000_0000
  type int64 = x: int | -0x8000_0000_0000_0000 <= x < 0x8000_0000_0000_0000

  const TWO_TO_32: int := 0x1_0000_0000

  /** Java `int` arithmetic: the exact result reduced to 32-bit two's complement. */
  function Wrap32(x: int): (r: int32)
    ensures (r - x) % TWO_TO_32 == 0
    ensures -0x8000_0000 <= x < 0x8000_0000 ==> r == x
  {
    (x + 0x8000_0000) % TWO_TO_32 - 0x8000_0000
  }

  /** Two integers congruent modulo 2^32 wrap to the same `int`. */
  lemma {:induction false} WrapCongruent(x: int, y: int)
    requires (x - y) % TWO_TO_32 == 0
    ensures Wrap32(x) == Wrap32(y)
  {
    var q := (x - y) / TWO_TO_32;
    assert x == y + q * TWO_TO_32;
    assert (x + 0x8000_0000) == (y + 0x8000_0000) + q * TWO_TO_32;
    ModShift(y + 0x8000_0000, q);
  }

  lemma {:induction false} ModShift(a: int, q: int)
    ensures (a + q * TWO_TO_32) % TWO_TO_32 == a % TWO_TO_32
  {
    var r := a % TWO_TO_32;
    var d := a / TWO_TO_32;
    assert a == d * TWO_TO_32 + r;
    assert a + q * TWO_TO_32 == (d + q) * TWO_TO_32 + r;
  }

  /**
   * Java's `31 * result + next` on `int`s wraps at every step; the result is the
   * same as wrapping the exact value once. This is what lets the step-by-step
   * accumulators of `hashCode` be specified by a closed formula.
   */
  lemma {:induction false} WrapStep(acc: int, next: int)
    ensures Wrap32(31 * Wrap32(acc) + next) == Wrap32(31 * acc + next)
  {
    var w := Wrap32(acc);
    var k := (w - acc) / TWO_TO_32;
    assert w - acc == k * TWO_TO_32;
    var m := 31 * k;
    assert (31 * w + next) - (31 * acc + next) == m * TWO_TO_32;
    MultipleOfModulus(m);
    WrapCongruent(31 * w + next, 31 * acc + next);
  }

  /** A multiple of 2^32 is 0 modulo 2^32. */
  lemma {:induction false} MultipleOfModulus(m: int)
    ensures (m * TWO_TO_32) % TWO_TO_32 == 0
  {
    ModShift(0, m);
  }

  datatype Temporal = LocalTime | LocalDate | LocalDateTime | OffsetDateTime

  /** A Java object as seen by an injector; `JNull` is Java's null. */
  datatype Value =
    | JNull
    | JBoolean(b: bool)
    | JByte(i8: int8)
    | JShort(i16: int16)
    | JInteger(i32: int32)
    | JLong(i64: int64)
    | JFloat(f32: int)                          // opaque bit pattern
    | JDouble(f64: int)                         // opaque bit pattern
    | JString(s: string)
    | JBigDecimal(unscaled: int, scale: int)
    | JTemporal(temporal: Temporal, text: string)
    | JTreeNode(tree: nat)                      // a Jackson tree, by identity
    | JMap(mapId: nat)                          // a java.util.Map, by identity
    | JRow(components: seq<Value>)              // a RowValue: a nested row tuple
    | JOther(javaClass: string, text: string)   // any other object
}
