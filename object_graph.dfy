/**
 * The Java objects a mapping of a nested type reads: plain classes whose
 * reference fields may point at one another, cycles included, as the
 * fixture classes of BasicNestedFieldsTest.java are built.
 *
 * A dotted path `this.a.b.name` is read by dereferencing one field per
 * segment; a null reference on the way makes the whole read null. The
 * fixture classes that override `equals` compare their declared fields in
 * order with `Objects.equals` and hash them with `Objects.hash`; the others
 * keep the identity `equals` of `Object`.
 */
module ObjectGraph {
  import opened Results
  import opened Values

  /** What `getClass()` returns: a name, the declared fields in order, and whether `equals` is overridden. */
  datatype JavaClass = JavaClass(name: string, declared: seq<string>, structural: bool)

  /** The content of one field: a scalar (boxed number, string, ...) or a reference. */
  datatype Slot = Scalar(v: Value) | Ref(target: Pojo?)

  predicate IsNull(s: Slot) {
    s == Scalar(JNull) || s == Ref(null)
  }

  class Pojo {
    const cls: JavaClass
    var fields: map<string, Slot>

    /** A constructor that sets the given fields; the rest keep Java's default, null. */
    constructor (cls: JavaClass, fields: map<string, Slot>)
      ensures this.cls == cls && this.fields == fields
    {
      this.cls := cls;
      this.fields := fields;
    }
  }

  /** A field's content; a field never assigned holds null. */
  function Get(o: Pojo, name: string): Slot
    reads o
  {
    if name in o.fields then o.fields[name] else Ref(null)
  }

  /**
   * Reads a dotted path from a slot. Each segment must be a declared field
   * of the object reached so far; a null on the way yields null, and a
   * segment applied to a non-null scalar or an undeclared name is an error.
   */
  function Deref(s: Slot, path: seq<string>): (r: Option<Slot>)
    reads *
    ensures path == [] ==> r == Some(s)
    ensures path != [] && IsNull(s) ==> r == Some(Scalar(JNull))
    decreases |path|
  {
    if path == [] then Some(s)
    else if IsNull(s) then Some(Scalar(JNull))
    else match s
      case Scalar(_) => None
      case Ref(o) =>
        if path[0] in o.cls.declared then Deref(Get(o, path[0]), path[1..]) else None
  }

  /** A path read in two halves: the first half must reach a slot, the second is read from there. */
  lemma {:induction false} DerefConcat(s: Slot, p: seq<string>, q: seq<string>)
    requires Deref(s, p).Some? && !IsNull(Deref(s, p).value)
    ensures Deref(s, p + q) == Deref(Deref(s, p).value, q)
    decreases |p|
  {
    if p == [] {
      assert p + q == q;
    } else {
      assert !IsNull(s);
      var o := s.target;
      assert (p + q)[0] == p[0] && (p + q)[1..] == p[1..] + q;
      DerefConcat(Get(o, p[0]), p[1..], q);
    }
  }

  /** The object reached by following reference field `field` k times, null once a hop fails. */
  function Follow(o: Pojo, field: string, k: nat): Pojo?
    reads *
  {
    if k == 0 then o
    else
      var p := Follow(o, field, k - 1);
      if p != null && Get(p, field).Ref? then Get(p, field).target else null
  }

  /** Following a + b times is following a times, then b more. */
  lemma {:induction false} FollowAdd(o: Pojo, field: string, a: nat, b: nat)
    requires Follow(o, field, a) != null
    ensures Follow(o, field, a + b) == Follow(Follow(o, field, a), field, b)
  {
    if b > 0 {
      FollowAdd(o, field, a, b - 1);
    }
  }

  /** Objects linked into a ring: each one's `field` refers to the next, the last to the first. */
  predicate Ring(objs: seq<Pojo>, field: string)
    reads set i | 0 <= i < |objs| :: objs[i]
  {
    && |objs| >= 1
    && forall i {:trigger Get(objs[i], field)} :: 0 <= i < |objs| ==>
         Get(objs[i], field) == Ref(if i + 1 < |objs| then objs[i + 1] else objs[0])
  }

  /** Fewer hops than the ring is long reach the object that many places on. */
  lemma {:induction false} RingWithin(objs: seq<Pojo>, field: string, r: nat)
    requires Ring(objs, field) && r < |objs|
    ensures Follow(objs[0], field, r) == objs[r]
  {
    if r > 0 {
      RingWithin(objs, field, r - 1);
      assert Get(objs[r - 1], field) == Ref(objs[r]);
    }
  }

  /** Around a ring of n objects, q full turns and r more hops land on object r. */
  lemma {:induction false} RingHops(objs: seq<Pojo>, field: string, q: nat, r: nat)
    requires Ring(objs, field) && r < |objs|
    ensures Follow(objs[0], field, q * |objs| + r) == objs[r]
  {
    var n := |objs|;
    if q == 0 {
      RingWithin(objs, field, r);
    } else {
      RingWithin(objs, field, n - 1);
      assert Get(objs[n - 1], field) == Ref(objs[0]);
      assert Follow(objs[0], field, n) == objs[0];
      FollowAdd(objs[0], field, n, (q - 1) * n + r);
      assert q * n + r == n + ((q - 1) * n + r);
      RingHops(objs, field, q - 1, r);
    }
  }

  /** `SelfRef`: no `equals` of its own. */
  const SELF_REF: JavaClass := JavaClass("SelfRef", ["id", "name", "other"], false)

  /** A SelfRef with an id and a name; `other` starts null. */
  method NewSelfRef(id: int64, name: string) returns (o: Pojo)
    ensures fresh(o) && o.cls == SELF_REF
    ensures Get(o, "id") == Scalar(JLong(id)) && Get(o, "name") == Scalar(JString(name))
    ensures Get(o, "other") == Ref(null)
  {
    o := new Pojo(SELF_REF, map["id" := Scalar(JLong(id)), "name" := Scalar(JString(name))]);
  }

  /** Four SelfRef objects, each `other` pointing at the next and the fourth back at the first. */
  method SelfRefRing() returns (ring: seq<Pojo>)
    ensures |ring| == 4 && Ring(ring, "other")
    ensures forall i :: 0 <= i < 4 ==> ring[i].cls == SELF_REF
    ensures Get(ring[0], "name") == Scalar(JString("first")) && Get(ring[1], "name") == Scalar(JString("second"))
    ensures Get(ring[2], "name") == Scalar(JString("third")) && Get(ring[3], "name") == Scalar(JString("fourth"))
  {
    var first := NewSelfRef(1, "first");
    var second := NewSelfRef(2, "second");
    var third := NewSelfRef(3, "third");
    var fourth := NewSelfRef(4, "fourth");
    first.fields := first.fields["other" := Ref(second)];
    second.fields := second.fields["other" := Ref(third)];
    third.fields := third.fields["other" := Ref(fourth)];
    fourth.fields := fourth.fields["other" := Ref(first)];
    ring := [first, second, third, fourth];
  }

  /**
   * On the SelfRef ring, `this.name`, `this.other.name`, ... read "first",
   * "second", "third", "fourth" and, after the fourth hop, "first" again.
   */
  lemma SelfRefReads(ring: seq<Pojo>)
    requires |ring| == 4 && Ring(ring, "other")
    requires forall i :: 0 <= i < 4 ==> ring[i].cls == SELF_REF
    requires Get(ring[0], "name") == Scalar(JString("first")) && Get(ring[1], "name") == Scalar(JString("second"))
    requires Get(ring[2], "name") == Scalar(JString("third")) && Get(ring[3], "name") == Scalar(JString("fourth"))
    ensures Deref(Ref(ring[0]), ["name"]) == Some(Scalar(JString("first")))
    ensures Deref(Ref(ring[0]), ["other", "name"]) == Some(Scalar(JString("second")))
    ensures Deref(Ref(ring[0]), ["other", "other", "name"]) == Some(Scalar(JString("third")))
    ensures Deref(Ref(ring[0]), ["other", "other", "other", "name"]) == Some(Scalar(JString("fourth")))
    ensures Deref(Ref(ring[0]), ["other", "other", "other", "other", "name"]) == Some(Scalar(JString("first")))
  {
    assert Get(ring[0], "other") == Ref(ring[1]) && Get(ring[1], "other") == Ref(ring[2]);
    assert Get(ring[2], "other") == Ref(ring[3]) && Get(ring[3], "other") == Ref(ring[0]);
    var n := ["name"];
    var on := ["other"] + n;
    var oon := ["other"] + on;
    var ooon := ["other"] + oon;
    var oooon := ["other"] + ooon;
    assert on == ["other", "name"] && oon == ["other", "other", "name"];
    assert ooon == ["other", "other", "other", "name"] && oooon == ["other", "other", "other", "other", "name"];
    assert Deref(Ref(ring[3]), on) == Deref(Ref(ring[0]), n);
    assert Deref(Ref(ring[2]), oon) == Deref(Ref(ring[3]), on);
    assert Deref(Ref(ring[1]), ooon) == Deref(Ref(ring[2]), oon);
    assert Deref(Ref(ring[0]), oooon) == Deref(Ref(ring[1]), ooon);
    assert Deref(Ref(ring[0]), on) == Deref(Ref(ring[1]), n);
    assert Deref(Ref(ring[0]), oon) == Deref(Ref(ring[2]), n) by {
      assert Deref(Ref(ring[1]), on) == Deref(Ref(ring[2]), n);
    }
    assert Deref(Ref(ring[0]), ooon) == Deref(Ref(ring[3]), n) by {
      assert Deref(Ref(ring[2]), on) == Deref(Ref(ring[3]), n);
      assert Deref(Ref(ring[1]), oon) == Deref(Ref(ring[3]), n);
    }
  }

  /** k hops along a ring of four reach object k mod 4. */
  lemma RingOfFour(ring: seq<Pojo>, field: string)
    requires |ring| == 4 && Ring(ring, field)
    ensures forall k: nat :: Follow(ring[0], field, k) == ring[k % 4]
  {
    forall k: nat ensures Follow(ring[0], field, k) == ring[k % 4] {
      RingHops(ring, field, k / 4, k % 4);
    }
  }

  /** `A`, `B` and `C`: each has a name and a reference to the next; none overrides `equals`. */
  const A_CLASS: JavaClass := JavaClass("A", ["name", "b"], false)
  const B_CLASS: JavaClass := JavaClass("B", ["name", "c"], false)
  const C_CLASS: JavaClass := JavaClass("C", ["name", "a"], false)

  /** a.b = b, b.c = c, c.a = a: reading `b.c.a.name` from `a` returns "a". */
  method CircularObjects() returns (a: Pojo)
    ensures a.cls == A_CLASS
    ensures Deref(Ref(a), ["b", "c", "a", "name"]) == Some(Scalar(JString("a")))
    ensures Deref(Ref(a), ["b", "c", "a"]) == Some(Ref(a))
  {
    a := new Pojo(A_CLASS, map["name" := Scalar(JString("a"))]);
    var b := new Pojo(B_CLASS, map["name" := Scalar(JString("b"))]);
    var c := new Pojo(C_CLASS, map["name" := Scalar(JString("c"))]);
    a.fields := a.fields["b" := Ref(b)];
    b.fields := b.fields["c" := Ref(c)];
    c.fields := c.fields["a" := Ref(a)];
    assert Deref(Ref(a), ["name"]) == Some(Scalar(JString("a")));
    assert Deref(Ref(c), ["a", "name"]) == Deref(Ref(a), ["name"]);
    assert Deref(Ref(b), ["c", "a", "name"]) == Deref(Ref(c), ["a", "name"]);
    assert Deref(Ref(a), ["b", "c", "a", "name"]) == Deref(Ref(b), ["c", "a", "name"]);
    assert Deref(Ref(c), ["a"]) == Some(Ref(a));
    assert Deref(Ref(b), ["c", "a"]) == Deref(Ref(c), ["a"]);
  }

  /** `User`, `Organization` and `Office` override `equals` and `hashCode` over their fields. */
  const USER_CLASS: JavaClass := JavaClass("User", ["id", "name", "organization"], true)
  const ORGANIZATION_CLASS: JavaClass := JavaClass("Organization", ["id", "name", "office"], true)
  const NONPROFIT_CLASS: JavaClass :=
    JavaClass("NonprofitOrganization", ["id", "name", "office", "governmentFunded"], true)
  const OFFICE_CLASS: JavaClass := JavaClass("Office", ["id", "name"], true)

  /**
   * `equals` of a fixture class: the identity shortcut, then null and class
   * checks, then `Objects.equals` on each declared field in order. A class
   * that does not override `equals` stops at the identity check. `fuel`
   * bounds the depth of nested `equals` calls; out of fuel, only identical
   * objects are equal.
   */
  function Equal(a: Pojo?, b: Pojo?, fuel: nat): (r: bool)
    reads *
    ensures a == b ==> r
    ensures r && a != b ==> a != null && b != null && a.cls == b.cls && a.cls.structural
    decreases fuel, 1, 0
  {
    if a == b then true
    else if a == null || b == null || a.cls != b.cls || !a.cls.structural || fuel == 0 then false
    else FieldsEqual(a, b, a.cls.declared, fuel - 1)
  }

  /** Every field in `names` holds `Objects.equals` contents in the two objects. */
  function FieldsEqual(a: Pojo, b: Pojo, names: seq<string>, fuel: nat): bool
    reads *
    decreases fuel, 3, |names|
  {
    names == [] || (SlotEqual(Get(a, names[0]), Get(b, names[0]), fuel) && FieldsEqual(a, b, names[1..], fuel))
  }

  /** `Objects.equals` on field contents: both null, equal scalars, or references whose `equals` holds. */
  function SlotEqual(s: Slot, t: Slot, fuel: nat): bool
    reads *
    decreases fuel, 2, 0
  {
    if IsNull(s) || IsNull(t) then IsNull(s) && IsNull(t)
    else match (s, t)
      case (Scalar(x), Scalar(y)) => x == y
      case (Ref(p), Ref(q)) => Equal(p, q, fuel)
      case _ => false
  }

  /**
   * `hashCode` of a fixture object. The classes that override it use
   * `Objects.hash` over the declared fields, that is 1 folded with
   * `31 * h + hash(field)` in 32-bit arithmetic, a null field counting 0;
   * the others keep `Object.hashCode`, an identity hash the model takes as
   * the parameter `identityHash`. Scalars hash by `valueHash`; a null object
   * hashes to 0.
   */
  function Hash(o: Pojo?, identityHash: Pojo -> int32, valueHash: Value -> int32, fuel: nat): (h: int32)
    reads *
    ensures o == null ==> h == 0
    ensures o != null && !o.cls.structural ==> h == identityHash(o)
    decreases fuel, 1, 0
  {
    if o == null then 0
    else if !o.cls.structural then identityHash(o)
    else if fuel == 0 then 0
    else HashFields(1, o, o.cls.declared, identityHash, valueHash, fuel - 1)
  }

  function HashFields(acc: int32, o: Pojo, names: seq<string>, identityHash: Pojo -> int32,
                      valueHash: Value -> int32, fuel: nat): int32
    reads *
    decreases fuel, 3, |names|
  {
    if names == [] then acc
    else HashFields(Wrap32(31 * acc + SlotHash(Get(o, names[0]), identityHash, valueHash, fuel)),
                    o, names[1..], identityHash, valueHash, fuel)
  }

  function SlotHash(s: Slot, identityHash: Pojo -> int32, valueHash: Value -> int32, fuel: nat): int32
    reads *
    decreases fuel, 2, 0
  {
    if IsNull(s) then 0
    else match s
      case Scalar(v) => valueHash(v)
      case Ref(p) => Hash(p, identityHash, valueHash, fuel)
  }

  /** `equals` is reflexive by the identity shortcut. */
  lemma EqualReflexive(a: Pojo?, fuel: nat)
    ensures Equal(a, a, fuel)
  {
  }

  /** `equals` is symmetric. */
  lemma {:induction false} EqualSymmetric(a: Pojo?, b: Pojo?, fuel: nat)
    ensures Equal(a, b, fuel) == Equal(b, a, fuel)
    decreases fuel, 1, 0
  {
    if a != b && a != null && b != null && a.cls == b.cls && a.cls.structural && fuel > 0 {
      FieldsEqualSymmetric(a, b, a.cls.declared, fuel - 1);
    }
  }

  lemma {:induction false} FieldsEqualSymmetric(a: Pojo, b: Pojo, names: seq<string>, fuel: nat)
    ensures FieldsEqual(a, b, names, fuel) == FieldsEqual(b, a, names, fuel)
    decreases fuel, 3, |names|
  {
    if names != [] {
      SlotEqualSymmetric(Get(a, names[0]), Get(b, names[0]), fuel);
      FieldsEqualSymmetric(a, b, names[1..], fuel);
    }
  }

  lemma {:induction false} SlotEqualSymmetric(s: Slot, t: Slot, fuel: nat)
    ensures SlotEqual(s, t, fuel) == SlotEqual(t, s, fuel)
    decreases fuel, 2, 0
  {
    if !IsNull(s) && !IsNull(t) && s.Ref? && t.Ref? {
      EqualSymmetric(s.target, t.target, fuel);
    }
  }

  /** `equals` is transitive. */
  lemma {:induction false} EqualTransitive(a: Pojo?, b: Pojo?, c: Pojo?, fuel: nat)
    requires Equal(a, b, fuel) && Equal(b, c, fuel)
    ensures Equal(a, c, fuel)
    decreases fuel, 1, 0
  {
    if a != b && b != c && a != c {
      FieldsEqualTransitive(a, b, c, a.cls.declared, fuel - 1);
    }
  }

  lemma {:induction false} FieldsEqualTransitive(a: Pojo, b: Pojo, c: Pojo, names: seq<string>, fuel: nat)
    requires FieldsEqual(a, b, names, fuel) && FieldsEqual(b, c, names, fuel)
    ensures FieldsEqual(a, c, names, fuel)
    decreases fuel, 3, |names|
  {
    if names != [] {
      SlotEqualTransitive(Get(a, names[0]), Get(b, names[0]), Get(c, names[0]), fuel);
      FieldsEqualTransitive(a, b, c, names[1..], fuel);
    }
  }

  lemma {:induction false} SlotEqualTransitive(s: Slot, t: Slot, u: Slot, fuel: nat)
    requires SlotEqual(s, t, fuel) && SlotEqual(t, u, fuel)
    ensures SlotEqual(s, u, fuel)
    decreases fuel, 2, 0
  {
    if !IsNull(s) && s.Ref? {
      EqualTransitive(s.target, t.target, u.target, fuel);
    }
  }

  /** Objects that are equal hash equally, whatever the identity and scalar hashes are. */
  lemma {:induction false} EqualObjectsHashEqually(a: Pojo?, b: Pojo?, identityHash: Pojo -> int32,
                                                   valueHash: Value -> int32, fuel: nat)
    requires Equal(a, b, fuel)
    ensures Hash(a, identityHash, valueHash, fuel) == Hash(b, identityHash, valueHash, fuel)
    decreases fuel, 1, 0
  {
    if a != b {
      EqualFieldsHashEqually(1, a, b, a.cls.declared, identityHash, valueHash, fuel - 1);
    }
  }

  lemma {:induction false} EqualFieldsHashEqually(acc: int32, a: Pojo, b: Pojo, names: seq<string>,
                                                  identityHash: Pojo -> int32, valueHash: Value -> int32, fuel: nat)
    requires FieldsEqual(a, b, names, fuel)
    ensures HashFields(acc, a, names, identityHash, valueHash, fuel) == HashFields(acc, b, names, identityHash, valueHash, fuel)
    decreases fuel, 3, |names|
  {
    if names != [] {
      EqualSlotsHashEqually(Get(a, names[0]), Get(b, names[0]), identityHash, valueHash, fuel);
      EqualFieldsHashEqually(Wrap32(31 * acc + SlotHash(Get(a, names[0]), identityHash, valueHash, fuel)),
                             a, b, names[1..], identityHash, valueHash, fuel);
    }
  }

  lemma {:induction false} EqualSlotsHashEqually(s: Slot, t: Slot, identityHash: Pojo -> int32,
                                                 valueHash: Value -> int32, fuel: nat)
    requires SlotEqual(s, t, fuel)
    ensures SlotHash(s, identityHash, valueHash, fuel) == SlotHash(t, identityHash, valueHash, fuel)
    decreases fuel, 2, 0
  {
    if !IsNull(s) && s.Ref? {
      EqualObjectsHashEqually(s.target, t.target, identityHash, valueHash, fuel);
    }
  }

  /** Field-by-field agreement on every name in `names` is what `FieldsEqual` checks. */
  lemma {:induction false} FieldwiseEqual(a: Pojo, b: Pojo, names: seq<string>, fuel: nat)
    requires forall n :: n in names ==> SlotEqual(Get(a, n), Get(b, n), fuel)
    ensures FieldsEqual(a, b, names, fuel)
    decreases |names|
  {
    if names != [] {
      FieldwiseEqual(a, b, names[1..], fuel);
    }
  }

  /** Objects of different classes are never equal, even when their fields agree. */
  lemma ClassesDiffer(a: Pojo, b: Pojo, fuel: nat)
    requires a.cls != b.cls
    ensures !Equal(a, b, fuel)
  {
  }

  /** `new Office(id, name)`. */
  method NewOffice(id: int64, name: string) returns (o: Pojo)
    ensures fresh(o) && o.cls == OFFICE_CLASS
    ensures Get(o, "id") == Scalar(JLong(id)) && Get(o, "name") == Scalar(JString(name))
  {
    o := new Pojo(OFFICE_CLASS, map["id" := Scalar(JLong(id)), "name" := Scalar(JString(name))]);
  }

  /** `new Organization(id, name, office)`. */
  method NewOrganization(id: int64, name: string, office: Pojo?) returns (o: Pojo)
    ensures fresh(o) && o.cls == ORGANIZATION_CLASS
    ensures Get(o, "id") == Scalar(JLong(id)) && Get(o, "name") == Scalar(JString(name))
    ensures Get(o, "office") == Ref(office)
  {
    o := new Pojo(ORGANIZATION_CLASS, map["id" := Scalar(JLong(id)), "name" := Scalar(JString(name)), "office" := Ref(office)]);
  }

  /** `new User(id, name, organization)`. */
  method NewUser(id: int64, name: string, organization: Pojo?) returns (o: Pojo)
    ensures fresh(o) && o.cls == USER_CLASS
    ensures Get(o, "id") == Scalar(JLong(id)) && Get(o, "name") == Scalar(JString(name))
    ensures Get(o, "organization") == Ref(organization)
  {
    o := new Pojo(USER_CLASS, map["id" := Scalar(JLong(id)), "name" := Scalar(JString(name)), "organization" := Ref(organization)]);
  }

  /** Offices with equal ids and names are equal. */
  lemma EqualOffices(a: Pojo, b: Pojo)
    requires a.cls == OFFICE_CLASS && b.cls == OFFICE_CLASS
    requires Get(a, "id") == Get(b, "id") && Get(a, "name") == Get(b, "name")
    ensures Equal(a, b, 1)
  {
    FieldwiseEqual(a, b, OFFICE_CLASS.declared, 0);
  }

  /** Organizations with equal ids and names and equal offices are equal. */
  lemma EqualOrganizations(a: Pojo, b: Pojo, fuel: nat)
    requires a.cls == ORGANIZATION_CLASS && b.cls == ORGANIZATION_CLASS
    requires Get(a, "id") == Get(b, "id") && Get(a, "name") == Get(b, "name")
    requires SlotEqual(Get(a, "office"), Get(b, "office"), fuel)
    ensures Equal(a, b, fuel + 1)
  {
    FieldwiseEqual(a, b, ORGANIZATION_CLASS.declared, fuel);
  }

  /** Users with equal ids and names and equal organizations are equal. */
  lemma EqualUsers(a: Pojo, b: Pojo, fuel: nat)
    requires a.cls == USER_CLASS && b.cls == USER_CLASS
    requires Get(a, "id") == Get(b, "id") && Get(a, "name") == Get(b, "name")
    requires SlotEqual(Get(a, "organization"), Get(b, "organization"), fuel)
    ensures Equal(a, b, fuel + 1)
  {
    FieldwiseEqual(a, b, USER_CLASS.declared, fuel);
  }

  /** The office, organization and user that every mapping of `UserType` reads. */
  method DefaultUser() returns (user: Pojo)
    ensures user.cls == USER_CLASS
    ensures Deref(Ref(user), ["name"]) == Some(Scalar(JString("user1")))
    ensures Deref(Ref(user), ["organization", "name"]) == Some(Scalar(JString("organization1")))
    ensures Deref(Ref(user), ["organization", "office", "name"]) == Some(Scalar(JString("office1")))
    ensures Deref(Ref(user), ["organization", "office", "id"]) == Some(Scalar(JLong(3)))
  {
    var office := NewOffice(3, "office1");
    var organization := NewOrganization(2, "organization1", office);
    user := NewUser(1, "user1", organization);
    assert Deref(Ref(office), ["name"]) == Some(Scalar(JString("office1")));
    assert Deref(Ref(office), ["id"]) == Some(Scalar(JLong(3)));
    assert Deref(Ref(organization), ["office", "name"]) == Deref(Ref(office), ["name"]);
    assert Deref(Ref(organization), ["office", "id"]) == Deref(Ref(office), ["id"]);
    assert Deref(Ref(organization), ["name"]) == Some(Scalar(JString("organization1")));
    assert Deref(Ref(user), ["organization", "office", "name"]) == Deref(Ref(organization), ["office", "name"]);
    assert Deref(Ref(user), ["organization", "office", "id"]) == Deref(Ref(organization), ["office", "id"]);
    assert Deref(Ref(user), ["organization", "name"]) == Deref(Ref(organization), ["name"]);
  }

  /**
   * Two users built separately from the same values are different objects
   * that `equals` relates, and so hash equally.
   */
  method EqualCopies(identityHash: Pojo -> int32, valueHash: Value -> int32) returns (u1: Pojo, u2: Pojo)
    ensures u1 != u2 && Equal(u1, u2, 3)
    ensures Hash(u1, identityHash, valueHash, 3) == Hash(u2, identityHash, valueHash, 3)
  {
    var office1 := NewOffice(3, "office1");
    var office2 := NewOffice(3, "office1");
    var org1 := NewOrganization(2, "organization1", office1);
    var org2 := NewOrganization(2, "organization1", office2);
    u1 := NewUser(1, "user1", org1);
    u2 := NewUser(1, "user1", org2);
    EqualOffices(office1, office2);
    EqualOrganizations(org1, org2, 1);
    EqualUsers(u1, u2, 2);
    EqualObjectsHashEqually(u1, u2, identityHash, valueHash, 3);
  }
}
