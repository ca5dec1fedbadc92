/**
 * Composite SQL types declared by name (CREATE TYPE), their resolution when
 * a mapping uses one, and the reading of dotted paths through typed rows.
 *
 * A type's fields may name other composite types, including ones declared
 * later, itself, or types that lead back to it; only at resolution must
 * every type reachable from the mapped one exist.
 */
module TypeRegistry {
  import opened Results
  import opened Values
  import opened SqlTypes

  datatype FieldType = Scalar(family: TypeFamily) | Composite(typeName: string)

  datatype TypeField = TypeField(name: string, fieldType: FieldType)

  /** The declared types, by name. */
  type Registry = map<string, seq<TypeField>>

  /** Declares a type; its field types are not looked up at this point. */
  function CreateType(reg: Registry, name: string, fields: seq<TypeField>): (r: Registry)
    ensures r.Keys == reg.Keys + {name} && r[name] == fields
    ensures forall n :: n in reg && n != name ==> r[n] == reg[n]
  {
    reg[name := fields]
  }

  /** Declarations of different names commute: a type may be declared after one that references it. */
  lemma DeclarationOrder(reg: Registry, n1: string, f1: seq<TypeField>, n2: string, f2: seq<TypeField>)
    requires n1 != n2
    ensures CreateType(CreateType(reg, n1, f1), n2, f2) == CreateType(CreateType(reg, n2, f2), n1, f1)
  {
  }

  /** The composite types a type's fields name, in field order. */
  function Refs(fields: seq<TypeField>): (r: seq<string>)
    ensures forall i :: 0 <= i < |fields| && fields[i].fieldType.Composite? ==> fields[i].fieldType.typeName in r
    ensures forall x :: x in r ==> exists i :: 0 <= i < |fields| && fields[i].fieldType == Composite(x)
  {
    if fields == [] then []
    else
      var rest := Refs(fields[1..]);
      assert forall i :: 1 <= i < |fields| ==> fields[i] == fields[1..][i - 1];
      (if fields[0].fieldType.Composite? then [fields[0].fieldType.typeName] else []) + rest
  }

  /** A set of declared types that names no type outside itself. */
  predicate Closed(reg: Registry, s: set<string>) {
    s <= reg.Keys && forall n, x :: n in s && x in Refs(reg[n]) ==> x in s
  }

  /** A chain of references: each type is declared and names the next. */
  predicate IsChain(reg: Registry, c: seq<string>) {
    |c| >= 1 && forall i :: 0 <= i < |c| - 1 ==> c[i] in reg && c[i + 1] in Refs(reg[c[i]])
  }

  function Last(c: seq<string>): string
    requires |c| >= 1
  {
    c[|c| - 1]
  }

  /** A closed set holds the end of every chain that starts in it. */
  lemma {:induction false} ClosedHoldsChains(reg: Registry, s: set<string>, c: seq<string>)
    requires Closed(reg, s) && IsChain(reg, c) && c[0] in s
    ensures Last(c) in s
    decreases |c|
  {
    if |c| > 1 {
      var p := c[..|c| - 1];
      assert IsChain(reg, p);
      ClosedHoldsChains(reg, s, p);
      assert c[|c| - 2] in s && c[|c| - 1] in Refs(reg[c[|c| - 2]]);
    }
  }

  function MissingTypeMessage(name: string): string {
    "Encountered type '" + name + "', which doesn't exist"
  }

  /** Every type a visited type names is visited or waiting in the work list. */
  predicate Frontier(reg: Registry, visited: set<string>, work: seq<string>) {
    visited <= reg.Keys && forall n, x :: n in visited && x in Refs(reg[n]) ==> x in visited || x in work
  }

  /** Each key holds a chain from the root to itself. */
  predicate ChainsFrom(reg: Registry, root: string, chains: map<string, seq<string>>) {
    forall n :: n in chains ==> IsChain(reg, chains[n]) && chains[n][0] == root && Last(chains[n]) == n
  }

  lemma FrontierSkip(reg: Registry, visited: set<string>, work: seq<string>)
    requires work != [] && work[0] in visited && Frontier(reg, visited, work)
    ensures Frontier(reg, visited, work[1..])
  {
    forall n, x | n in visited && x in Refs(reg[n]) ensures x in visited || x in work[1..] {
      if x !in visited {
        assert x in work && x != work[0];
      }
    }
  }

  lemma FrontierVisit(reg: Registry, visited: set<string>, work: seq<string>)
    requires work != [] && work[0] in reg && Frontier(reg, visited, work)
    ensures Frontier(reg, visited + {work[0]}, work[1..] + Refs(reg[work[0]]))
  {
    var n0 := work[0];
    forall n, x | n in visited + {n0} && x in Refs(reg[n])
      ensures x in visited + {n0} || x in work[1..] + Refs(reg[n0])
    {
      if n != n0 && x !in visited && x != n0 {
        assert x in work;
        assert x in work[1..];
      }
    }
  }

  /**
   * Resolves the type a mapping uses: a walk over every type reachable from
   * it, each visited once, so that cycles end. The first undeclared type the
   * walk meets is reported.
   */
  method ResolveType(reg: Registry, root: string) returns (r: Result<set<string>>, ghost chain: seq<string>)
    ensures r.Ok? ==> Closed(reg, r.value) && root in r.value
    ensures r.Err? ==> IsChain(reg, chain) && chain[0] == root && Last(chain) !in reg
                       && r.failure == QueryError(MissingTypeMessage(Last(chain)))
    ensures r.Err? ==> forall s :: Closed(reg, s) ==> root !in s
  {
    var visited: set<string> := {};
    var work: seq<string> := [root];
    ghost var chains: map<string, seq<string>> := map[root := [root]];
    while work != []
      invariant Frontier(reg, visited, work)
      invariant root in visited || root in work
      invariant forall n :: n in work ==> n in chains
      invariant ChainsFrom(reg, root, chains)
      decreases reg.Keys - visited, |work|
    {
      var n := work[0];
      if n in visited {
        FrontierSkip(reg, visited, work);
        work := work[1..];
        continue;
      }
      if n !in reg {
        NoClosedSet(reg, root, chains[n]);
        return Err(QueryError(MissingTypeMessage(n))), chains[n];
      }
      var refs := Refs(reg[n]);
      ghost var extended := map x | x in refs && x !in chains :: chains[n] + [x];
      forall x | x in extended
        ensures IsChain(reg, extended[x]) && extended[x][0] == root && Last(extended[x]) == x
      {
        ExtendChain(reg, chains[n], x);
      }
      FrontierVisit(reg, visited, work);
      chains := chains + extended;
      visited := visited + {n};
      work := work[1..] + refs;
    }
    r := Ok(visited);
    chain := [];
  }

  /** A chain to a declared type extends by any type that type names. */
  lemma ExtendChain(reg: Registry, c: seq<string>, x: string)
    requires IsChain(reg, c) && Last(c) in reg && x in Refs(reg[Last(c)])
    ensures IsChain(reg, c + [x]) && (c + [x])[0] == c[0] && Last(c + [x]) == x
  {
    var d := c + [x];
    forall i | 0 <= i < |d| - 1
      ensures d[i] in reg && d[i + 1] in Refs(reg[d[i]])
    {
      if i < |c| - 1 {
        assert d[i] == c[i] && d[i + 1] == c[i + 1];
      }
    }
  }

  /** A chain from the root to an undeclared type rules out every closed set holding the root. */
  lemma NoClosedSet(reg: Registry, root: string, c: seq<string>)
    requires IsChain(reg, c) && c[0] == root && Last(c) !in reg
    ensures forall s :: Closed(reg, s) ==> root !in s
  {
    forall s | Closed(reg, s) ensures root !in s {
      if root in s {
        ClosedHoldsChains(reg, s, c);
      }
    }
  }

  /**
   * The type of a dotted path starting at a composite type: each hop but the
   * last must name a composite field, so a path has as many hops as it has
   * names, whatever cycles the types contain.
   */
  function PathType(reg: Registry, typeName: string, path: seq<string>): (r: Option<FieldType>)
    ensures path == [] ==> r == Some(Composite(typeName))
    ensures r.Some? && path != [] ==> typeName in reg && FieldTypeOf(reg[typeName], path[0]).Some?
    ensures r.Some? && |path| > 1 ==> FieldTypeOf(reg[typeName], path[0]).value.Composite?
    decreases |path|
  {
    if path == [] then Some(Composite(typeName))
    else if typeName !in reg then None
    else
      match FieldTypeOf(reg[typeName], path[0])
      case None => None
      case Some(Scalar(f)) => if |path| == 1 then Some(Scalar(f)) else None
      case Some(Composite(t)) => PathType(reg, t, path[1..])
  }

  /** `k` copies of one field name. */
  function Repeat(name: string, k: nat): (r: seq<string>)
    ensures |r| == k && forall i :: 0 <= i < k ==> r[i] == name
  {
    if k == 0 then [] else [name] + Repeat(name, k - 1)
  }

  /** The fields of `SelfRefType`. */
  const SELF_REF_FIELDS: seq<TypeField> :=
    [TypeField("id", Scalar(BigInt)), TypeField("name", Scalar(Varchar)), TypeField("other", Composite("SelfRefType"))]

  /** Through a self-referencing type, `other` may be followed any number of times before `name`. */
  lemma {:induction false} SelfReferenceAnyDepth(reg: Registry, k: nat)
    requires "SelfRefType" in reg && reg["SelfRefType"] == SELF_REF_FIELDS
    ensures PathType(reg, "SelfRefType", Repeat("other", k) + ["name"]) == Some(Scalar(Varchar))
  {
    var path := Repeat("other", k) + ["name"];
    assert FieldTypeOf(SELF_REF_FIELDS, "other") == Some(Composite("SelfRefType"));
    assert FieldTypeOf(SELF_REF_FIELDS, "name") == Some(Scalar(Varchar));
    if k > 0 {
      assert path[0] == "other";
      assert path[1..] == Repeat("other", k - 1) + ["name"];
      SelfReferenceAnyDepth(reg, k - 1);
    } else {
      assert path == ["name"];
    }
  }

  /** The types of the `User` example, declared user first. */
  function UserTypes(): Registry {
    var r0 := CreateType(map[], "UserType",
      [TypeField("id", Scalar(BigInt)), TypeField("name", Scalar(Varchar)),
       TypeField("organization", Composite("OrganizationType"))]);
    var r1 := CreateType(r0, "OrganizationType",
      [TypeField("id", Scalar(BigInt)), TypeField("name", Scalar(Varchar)),
       TypeField("office", Composite("OfficeType"))]);
    CreateType(r1, "OfficeType", [TypeField("id", Scalar(BigInt)), TypeField("name", Scalar(Varchar))])
  }

  /**
   * The index of a field name within a type, the position of its component
   * in a row of that type.
   */
  function IndexOf(fields: seq<TypeField>, name: string): (r: Option<nat>)
    ensures r.Some? ==> r.value < |fields| && fields[r.value].name == name
    ensures r.None? ==> forall i :: 0 <= i < |fields| ==> fields[i].name != name
  {
    if fields == [] then None
    else if fields[0].name == name then Some(0)
    else
      match IndexOf(fields[1..], name)
      case Some(i) => Some(i + 1)
      case None => None
  }

  /** The type of a type's field, by name (the first field of that name). */
  function FieldTypeOf(fields: seq<TypeField>, name: string): (r: Option<FieldType>)
    ensures r.Some? <==> exists i :: 0 <= i < |fields| && fields[i].name == name
    ensures r.Some? ==> exists i :: 0 <= i < |fields| && fields[i] == TypeField(name, r.value)
  {
    match IndexOf(fields, name)
    case Some(i) => Some(fields[i].fieldType)
    case None => None
  }

  /**
   * Reads a dotted path from a row of a composite type: a row value holds
   * one component per field, in field order; a null composite reads as null
   * at any depth below it.
   */
  function ReadPath(reg: Registry, typeName: string, row: Value, path: seq<string>): (r: Option<Value>)
    ensures path == [] ==> r == Some(row)
    ensures r.Some? && path != [] ==> typeName in reg && IndexOf(reg[typeName], path[0]).Some?
    ensures row == JNull && r.Some? ==> r.value == JNull
    decreases |path|
  {
    if path == [] then Some(row)
    else if typeName !in reg then None
    else
      var fields := reg[typeName];
      match IndexOf(fields, path[0])
      case None => None
      case Some(i) =>
        match fields[i].fieldType
        case Scalar(_) =>
          if |path| != 1 then None
          else if row == JNull then Some(JNull)
          else if row.JRow? && |row.components| == |fields| then Some(row.components[i])
          else None
        case Composite(t) =>
          if row == JNull then ReadPath(reg, t, JNull, path[1..])
          else if row.JRow? && |row.components| == |fields| then ReadPath(reg, t, row.components[i], path[1..])
          else None
  }

  /** Only a path that has a type can be read. */
  lemma {:induction false} ReadsAreTyped(reg: Registry, typeName: string, row: Value, path: seq<string>)
    requires ReadPath(reg, typeName, row, path).Some?
    ensures PathType(reg, typeName, path).Some?
    decreases |path|
  {
    if path != [] {
      var fields := reg[typeName];
      var i := IndexOf(fields, path[0]).value;
      assert FieldTypeOf(fields, path[0]) == Some(fields[i].fieldType);
      if fields[i].fieldType.Composite? {
        var next := if row == JNull then JNull else row.components[i];
        ReadsAreTyped(reg, fields[i].fieldType.typeName, next, path[1..]);
      }
    }
  }

  /** A null composite reads as null through every path its type allows. */
  lemma {:induction false} NullCompositeReadsNull(reg: Registry, typeName: string, path: seq<string>)
    requires path != [] && PathType(reg, typeName, path).Some?
    ensures ReadPath(reg, typeName, JNull, path) == Some(JNull)
    decreases |path|
  {
    var fields := reg[typeName];
    var i := IndexOf(fields, path[0]).value;
    assert FieldTypeOf(fields, path[0]) == Some(fields[i].fieldType);
    if fields[i].fieldType.Composite? && |path| > 1 {
      NullCompositeReadsNull(reg, fields[i].fieldType.typeName, path[1..]);
    }
  }

  const USER_FIELDS: seq<TypeField> :=
    [TypeField("id", Scalar(BigInt)), TypeField("name", Scalar(Varchar)),
     TypeField("organization", Composite("OrganizationType"))]

  const ORGANIZATION_FIELDS: seq<TypeField> :=
    [TypeField("id", Scalar(BigInt)), TypeField("name", Scalar(Varchar)), TypeField("office", Composite("OfficeType"))]

  const OFFICE_FIELDS: seq<TypeField> := [TypeField("id", Scalar(BigInt)), TypeField("name", Scalar(Varchar))]

  /** A set of types that is closed forces resolution to succeed. */
  method ResolveClosed(reg: Registry, root: string, s: set<string>) returns (r: Result<set<string>>)
    requires Closed(reg, s) && root in s
    ensures r.Ok? && Closed(reg, r.value) && root in r.value
  {
    ghost var chain;
    r, chain := ResolveType(reg, root);
  }

  /**
   * `UserType` names `OrganizationType` before it is declared; once the
   * three types exist, the mapping's type resolves.
   */
  method UserTypesResolve() returns (r: Result<set<string>>)
    ensures r.Ok? && Closed(UserTypes(), r.value) && "UserType" in r.value
  {
    var reg := UserTypes();
    assert reg == map["UserType" := USER_FIELDS, "OrganizationType" := ORGANIZATION_FIELDS, "OfficeType" := OFFICE_FIELDS];
    assert Refs(USER_FIELDS) == ["OrganizationType"];
    assert Refs(ORGANIZATION_FIELDS) == ["OfficeType"];
    assert Refs(OFFICE_FIELDS) == [];
    r := ResolveClosed(reg, "UserType", {"UserType", "OrganizationType", "OfficeType"});
  }

  /** Without `OrganizationType`, the mapping of `UserType` is rejected naming the missing type. */
  method MissingTypeRejected() returns (r: Result<set<string>>)
    ensures r == Err(QueryError(MissingTypeMessage("OrganizationType")))
  {
    var reg := CreateType(map[], "UserType", USER_FIELDS);
    assert Refs(USER_FIELDS) == ["OrganizationType"];
    assert reg.Keys == {"UserType"};
    ExtendChain(reg, ["UserType"], "OrganizationType");
    assert ["UserType"] + ["OrganizationType"] == ["UserType", "OrganizationType"];
    NoClosedSet(reg, "UserType", ["UserType", "OrganizationType"]);
    ghost var chain;
    r, chain := ResolveType(reg, "UserType");
    assert r.Err?;
    assert chain[0] in reg;
    assert |chain| >= 2;
    assert chain[1] == "OrganizationType";
    assert chain[1] !in reg;
    assert |chain| == 2;
  }

  /** A type whose `other` field has its own type is accepted. */
  method SelfRefTypeResolves() returns (r: Result<set<string>>)
    ensures r.Ok? && "SelfRefType" in r.value
  {
    var reg := CreateType(map[], "SelfRefType", SELF_REF_FIELDS);
    assert Refs(SELF_REF_FIELDS) == ["SelfRefType"];
    r := ResolveClosed(reg, "SelfRefType", {"SelfRefType"});
  }

  const A_FIELDS: seq<TypeField> := [TypeField("name", Scalar(Varchar)), TypeField("b", Composite("BType"))]
  const B_FIELDS: seq<TypeField> := [TypeField("name", Scalar(Varchar)), TypeField("c", Composite("CType"))]
  const C_FIELDS: seq<TypeField> := [TypeField("name", Scalar(Varchar)), TypeField("a", Composite("AType"))]

  /** The types A, B and C, each naming the next, C naming A. */
  function CircularTypes(): Registry {
    CreateType(CreateType(CreateType(map[], "AType", A_FIELDS), "BType", B_FIELDS), "CType", C_FIELDS)
  }

  /** The three circular types, each naming the next, form a closed set. */
  lemma CircularTypesClosed()
    ensures Closed(CircularTypes(), {"AType", "BType", "CType"})
  {
    var reg := CircularTypes();
    var s := {"AType", "BType", "CType"};
    assert reg.Keys == s;
    assert reg["AType"] == A_FIELDS && reg["BType"] == B_FIELDS && reg["CType"] == C_FIELDS;
    assert Refs(A_FIELDS) == ["BType"] && Refs(B_FIELDS) == ["CType"] && Refs(C_FIELDS) == ["AType"];
    forall n, x | n in s && x in Refs(reg[n])
      ensures x in s
    {
      assert Refs(reg[n]) == ["BType"] || Refs(reg[n]) == ["CType"] || Refs(reg[n]) == ["AType"];
    }
  }

  /** Mutually recursive types are accepted. */
  method CircularTypesResolve() returns (r: Result<set<string>>)
    ensures r.Ok? && "AType" in r.value
  {
    CircularTypesClosed();
    r := ResolveClosed(CircularTypes(), "AType", {"AType", "BType", "CType"});
  }

  /** From an A, the path `b.c.a.name` goes round the cycle once and ends at a VARCHAR. */
  lemma CircularPathTypes()
    ensures PathType(CircularTypes(), "AType", ["b", "c", "a", "name"]) == Some(Scalar(Varchar))
  {
    var reg := CircularTypes();
    var a, b, c := A_FIELDS, B_FIELDS, C_FIELDS;
    assert reg["AType"] == a && reg["BType"] == b && reg["CType"] == c;
    assert FieldTypeOf(a, "name") == Some(Scalar(Varchar));
    assert PathType(reg, "AType", ["name"]) == Some(Scalar(Varchar));
    assert FieldTypeOf(c, "a") == Some(Composite("AType"));
    assert ["a", "name"][1..] == ["name"];
    assert PathType(reg, "CType", ["a", "name"]) == Some(Scalar(Varchar));
    assert FieldTypeOf(b, "c") == Some(Composite("CType"));
    assert ["c", "a", "name"][1..] == ["a", "name"];
    assert PathType(reg, "BType", ["c", "a", "name"]) == Some(Scalar(Varchar));
    assert FieldTypeOf(a, "b") == Some(Composite("BType"));
    assert ["b", "c", "a", "name"][1..] == ["c", "a", "name"];
  }

  /**
   * A row inserted as nested tuples, `(2, 'user2', (2, 'organization2', (2, 'office2')))`,
   * reads back each nested name by its dotted path.
   */
  lemma DeepInsertReadsBack()
    ensures var row := JRow([JLong(2), JString("user2"),
                             JRow([JLong(2), JString("organization2"), JRow([JLong(2), JString("office2")])])]);
            && ReadPath(UserTypes(), "UserType", row, ["name"]) == Some(JString("user2"))
            && ReadPath(UserTypes(), "UserType", row, ["organization", "name"]) == Some(JString("organization2"))
            && ReadPath(UserTypes(), "UserType", row, ["organization", "office", "name"]) == Some(JString("office2"))
  {
    var reg := UserTypes();
    var office := JRow([JLong(2), JString("office2")]);
    var org := JRow([JLong(2), JString("organization2"), office]);
    var user := JRow([JLong(2), JString("user2"), org]);
    assert reg["UserType"] == USER_FIELDS && reg["OrganizationType"] == ORGANIZATION_FIELDS;
    assert reg["OfficeType"] == OFFICE_FIELDS;
    assert IndexOf(USER_FIELDS, "name") == Some(1) && IndexOf(USER_FIELDS, "organization") == Some(2);
    assert IndexOf(ORGANIZATION_FIELDS, "name") == Some(1) && IndexOf(ORGANIZATION_FIELDS, "office") == Some(2);
    assert IndexOf(OFFICE_FIELDS, "name") == Some(1);
    assert ReadPath(reg, "OfficeType", office, ["name"]) == Some(JString("office2"));
    assert ["office", "name"][1..] == ["name"];
    assert ReadPath(reg, "OrganizationType", org, ["office", "name"]) == Some(JString("office2"));
    assert ReadPath(reg, "OrganizationType", org, ["name"]) == Some(JString("organization2"));
    assert ["organization", "office", "name"][1..] == ["office", "name"];
    assert ["organization", "name"][1..] == ["name"];
  }

  /** An organisation row whose office is null reads its office as null. */
  lemma NullNestedOfficeReadsNull()
    ensures var reg := CreateType(CreateType(map[],
                         "Office", [TypeField("id", Scalar(BigInt)), TypeField("name", Scalar(Varchar))]),
                         "Organization", [TypeField("id", Scalar(BigInt)), TypeField("name", Scalar(Varchar)),
                                          TypeField("office", Composite("Office"))]);
            && ReadPath(reg, "Organization", JRow([JLong(2), JString("orgName"), JNull]), ["office"]) == Some(JNull)
            && ReadPath(reg, "Organization", JRow([JLong(2), JString("orgName"), JNull]), ["office", "name"]) == Some(JNull)
  {
    var org := [TypeField("id", Scalar(BigInt)), TypeField("name", Scalar(Varchar)), TypeField("office", Composite("Office"))];
    var office := [TypeField("id", Scalar(BigInt)), TypeField("name", Scalar(Varchar))];
    assert IndexOf(org, "office") == Some(2);
    assert IndexOf(office, "name") == Some(1);
    assert ["office", "name"][1..] == ["name"];
  }
}
