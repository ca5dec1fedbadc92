# Hazelcast SQL key/value write path, in Dafny

This project models how Hazelcast SQL turns one query row into the key
object and the value object of a map entry. It also covers the pieces around
that path that the repository's tests pin down.

- **Upsert targets.** Every target goes through the same cycle: `init`, any
  number of injector writes, then `conclude`. `createInjector(path, type)`
  runs once, before any row, and chooses the write each column will perform.
  - `Json.JsonUpsertTarget`: a type-family switch with a null short-circuit.
    A reused output buffer is reset by `init` and closed by `conclude`.
    Output is modelled as a sequence of JSON tokens.
  - `CompactFormat.CompactUpsertTarget`: one setter per field kind. The kind
    comes from the target's fixed schema. The target owns a record builder
    that `init` installs and `conclude` clears.
  - `HazelcastObject.HazelcastObjectUpsertTarget`: a single slot. It holds
    the converted whole object.
  - `Upsert`: the interface as a closed sum over those targets, plus the
    converting target the projector tests use.
    - Each dispatching method is specified by a pure transition on the
      target's per-row state (`InitScratch`, `InjectScratch`,
      `ConcludeScratch`).
    - That lets a whole projected row be stated as one function.
- **The key/value projector** (`KvProjectors`). It does the following, in order:
  1. it inits both targets;
  2. it applies each column's injector in column order;
  3. it concludes the key and, if asked to, rejects a null key;
  4. it concludes the value and does the same for a null value.

  The projector's supplier is written to an object data stream and read back.
- **`TableFields.TableField`.** A table column with structural `equals`, a
  32-bit `hashCode` that agrees with it, and a field-order
  `writeData`/`readData`.
- **Object data streams** (`Serialization`). Each stream is a sequence of
  typed items. A reader consumes a prefix of the sequence and hands back the
  rest.
- **Composite types** (`TypeRegistry`).
  - Types are declared by name and may name each other, including
    self-references and cycles.
  - Resolving a mapping's type is a worklist walk. It ends either in a closed
    set of declared types or in a chain of references that reaches an
    undeclared name.
  - A dotted path is typed and read one segment at a time.
- **The Java objects such mappings read** (`ObjectGraph`).
  - These are the fixture classes, with reference fields that may form
    cycles.
  - They support dotted-path dereference.
  - `equals`/`hashCode` are structural for the classes that override them
    and identity for the others.

Code outside the modelled files mostly enters as a function parameter, and the
lemmas hold for every such function. This applies to:
- the `QueryDataType.convert` coercions;
- `customTypeConverter`;
- `convertRowToCompactType`;
- the `hashCode` of strings, of `QueryDataType` and of boxed values.

The one exception is the Compact record builder, whose behaviour the model
fixes itself (see `CompactFormat.CompactUpsertTarget.Conclude` under
"## Left out").

Java `int` arithmetic is written out as wrap-around to 32 bits (`Values.Wrap32`).

The shown sources disagree about the shape of the `UpsertTarget` base:
`CompactUpsertTarget` implements an interface and `JsonUpsertTarget` extends
a class. The model follows the methods both shapes share: `createInjector`,
`init` and `conclude`.

## Model

| member | source | states |
|---|---|---|
| Json.CreateInjector | hazelcast-sql/src/main/java/com/hazelcast/jet/sql/impl/inject/JsonUpsertTarget.java:56-62 | A null path gives the failing top-level injector and never a field writer. Given a path, creation succeeds exactly for the 14 writable families and yields a field injector for that path. Any other family fails with "Unsupported type: " followed by the family. |
| Json.Emit | hazelcast-sql/src/main/java/com/hazelcast/jet/sql/impl/inject/JsonUpsertTarget.java:64-77 | The top-level injector rejects every write. A null value emits exactly a field name plus a null token. A write succeeds exactly when it emits one complete field for its path. A failed write leaves nothing, or only the dangling field name. |
| Json.NullWritesNullField | hazelcast-sql/src/main/java/com/hazelcast/jet/sql/impl/inject/JsonUpsertTarget.java:68-72 | For every writable family, a null value writes one explicit null field and the typed writer is never consulted. |
| Json.TypedWrites | hazelcast-sql/src/main/java/com/hazelcast/jet/sql/impl/inject/JsonUpsertTarget.java:82-127 | BOOLEAN writes a boolean field. TINYINT through DOUBLE write a number of that family's width. The six text families write the VARCHAR conversion as a string. OBJECT writes the field name and then one value token. Conversion failures surface as the write's failure. |
| Json.NativeToken | hazelcast-sql/src/main/java/com/hazelcast/jet/sql/impl/inject/JsonUpsertTarget.java:106-123 | OBJECT values are written natively exactly when they are a tree, a map, or a boxed boolean, byte, short, int, long, float or double. Anything else falls back to a string. |
| Json.WriteNonNull | hazelcast-sql/src/main/java/com/hazelcast/jet/sql/impl/inject/JsonUpsertTarget.java:80-131 | A write that succeeds emits exactly one field for its path. Every failure is a conversion failure. Only the OBJECT writer leaves anything behind when it fails, and then only the field name. |
| Json.FlattenAppend | hazelcast-sql/src/main/java/com/hazelcast/jet/sql/impl/inject/JsonUpsertTarget.java:61 | The buffer after one more write is the earlier buffer followed by that write's tokens. |
| Json.SuccessfulWritesParse | hazelcast-sql/src/main/java/com/hazelcast/jet/sql/impl/inject/JsonUpsertTarget.java:144-152 | Successful writes, followed by the closing token, parse back to exactly the fields written, in write order. |
| Json.TokenBuffer.Reset | hazelcast-sql/src/main/java/com/hazelcast/jet/sql/impl/inject/JsonUpsertTarget.java:135 | Resetting the reused buffer empties it. |
| Json.TokenBuffer.Append | hazelcast-sql/src/main/java/com/hazelcast/jet/sql/impl/inject/JsonUpsertTarget.java:48 | Writing to the buffer appends and keeps what was there. |
| Json.JsonUpsertTarget.constructor | hazelcast-sql/src/main/java/com/hazelcast/jet/sql/impl/inject/JsonUpsertTarget.java:48-53 | A new target owns a fresh buffer and has no open generator. |
| Json.JsonUpsertTarget.Init | hazelcast-sql/src/main/java/com/hazelcast/jet/sql/impl/inject/JsonUpsertTarget.java:134-142 | The same buffer is reset and then holds only the start-object token. Nothing from an earlier row survives. |
| Json.JsonUpsertTarget.Inject | hazelcast-sql/src/main/java/com/hazelcast/jet/sql/impl/inject/JsonUpsertTarget.java:61 | The buffer grows by exactly the write's tokens. The write is recorded in order, and its failure is returned. |
| Json.JsonUpsertTarget.Conclude | hazelcast-sql/src/main/java/com/hazelcast/jet/sql/impl/inject/JsonUpsertTarget.java:144-153 | Returns start-object, then the writes since `init` in order, then end-object, and closes the generator. With no writes the result is `{}`. When every write succeeded, the result parses back to the fields written. |
| CompactFormat.CreateInjector | hazelcast-sql/src/main/java/com/hazelcast/jet/sql/impl/inject/CompactUpsertTarget.java:51-94 | A null path gives the failing top-level injector. A path missing from the schema still gives an injector, one that fails later. For a present path, creation succeeds exactly for the 14 supported kinds and gives the setter for the schema's kind. Any other kind fails with "<kind> kind is not supported in SQL with Compact format!". |
| CompactFormat.KindFromSchema | hazelcast-sql/src/main/java/com/hazelcast/jet/sql/impl/inject/CompactUpsertTarget.java:61-62 | The setter and its success depend on the schema's kind for the path, never on the query type. |
| CompactFormat.Set | hazelcast-sql/src/main/java/com/hazelcast/jet/sql/impl/inject/CompactUpsertTarget.java:55-90 | A missing field fails with `Field "<path>" doesn't exist in Compact schema`. A value of the wrong Java class fails the cast. Otherwise the value is written under exactly that path and no other field changes. The COMPACT kind stores the nested record converted from the row value and the field's type. |
| CompactFormat.CompactUpsertTarget.constructor | hazelcast-sql/src/main/java/com/hazelcast/jet/sql/impl/inject/CompactUpsertTarget.java:45-47 | A new target keeps its schema and has no builder. |
| CompactFormat.CompactUpsertTarget.Init | hazelcast-sql/src/main/java/com/hazelcast/jet/sql/impl/inject/CompactUpsertTarget.java:97-99 | Installs a fresh, empty builder bound to the target's schema. |
| CompactFormat.CompactUpsertTarget.Inject | hazelcast-sql/src/main/java/com/hazelcast/jet/sql/impl/inject/CompactUpsertTarget.java:56-90 | The builder becomes what `Set` computes. A failed write leaves it unchanged. |
| CompactFormat.CompactUpsertTarget.Conclude | hazelcast-sql/src/main/java/com/hazelcast/jet/sql/impl/inject/CompactUpsertTarget.java:102-106 | Returns the record built on the schema from the builder's fields, and clears the builder. |
| HazelcastObject.CreateInjector | hazelcast-sql/src/main/java/com/hazelcast/jet/sql/impl/inject/HazelcastObjectUpsertTarget.java:38-46 | Creation succeeds exactly for the JAVA type kind, whatever the path. Otherwise it fails with "TypeKind <k> does not support top-level custom types". |
| HazelcastObject.LastWriteWins | hazelcast-sql/src/main/java/com/hazelcast/jet/sql/impl/inject/HazelcastObjectUpsertTarget.java:42 | After several successful writes, the slot holds the last converted value. |
| HazelcastObject.Store | hazelcast-sql/src/main/java/com/hazelcast/jet/sql/impl/inject/HazelcastObjectUpsertTarget.java:42 | A write succeeds exactly when the type's converter does, and the slot then holds the converted value. When the converter fails, the old slot is kept and the converter's failure is reported. |
| HazelcastObject.HazelcastObjectUpsertTarget.constructor | hazelcast-sql/src/main/java/com/hazelcast/jet/sql/impl/inject/HazelcastObjectUpsertTarget.java:31-35 | A new target's slot is null. |
| HazelcastObject.HazelcastObjectUpsertTarget.Init | hazelcast-sql/src/main/java/com/hazelcast/jet/sql/impl/inject/HazelcastObjectUpsertTarget.java:48-49 | Changes nothing. The stored object survives. |
| HazelcastObject.HazelcastObjectUpsertTarget.Inject | hazelcast-sql/src/main/java/com/hazelcast/jet/sql/impl/inject/HazelcastObjectUpsertTarget.java:41-42 | The slot is replaced by the converter's result for the value. |
| HazelcastObject.HazelcastObjectUpsertTarget.Conclude | hazelcast-sql/src/main/java/com/hazelcast/jet/sql/impl/inject/HazelcastObjectUpsertTarget.java:51-54 | Returns the stored object without clearing it. |
| Upsert.CreateInjector | hazelcast-sql/src/main/java/com/hazelcast/jet/sql/impl/inject/CompactUpsertTarget.java:51 | An injector that a target creates belongs to that target's implementation. |
| Upsert.InitScratch | hazelcast-sql/src/main/java/com/hazelcast/jet/sql/impl/inject/JsonUpsertTarget.java:134-142 | After `init`, every target is ready for writes: a generator is open, or a builder or slot is in place. |
| Upsert.InjectScratch | hazelcast-sql/src/main/java/com/hazelcast/jet/sql/impl/inject/CompactUpsertTarget.java:56-90 | A write, successful or not, leaves the target ready for the next write. |
| Upsert.ConcludeScratch | hazelcast-sql/src/main/java/com/hazelcast/jet/sql/impl/inject/CompactUpsertTarget.java:102-106 | The JSON target yields bytes and the Compact target a record, and neither can be written or concluded again. The single-slot targets yield the slot and keep it. |
| Upsert.Init | hazelcast-sql/src/main/java/com/hazelcast/jet/sql/impl/inject/HazelcastObjectUpsertTarget.java:48-49 | Dispatches `init` and keeps the target's invariant. The new per-row state is `InitScratch` of the old. |
| Upsert.Inject | hazelcast-sql/src/main/java/com/hazelcast/jet/sql/impl/inject/JsonUpsertTarget.java:61 | Dispatches an injector call. The new state and the failure are `InjectScratch` of the old state. |
| Upsert.Conclude | hazelcast-sql/src/main/java/com/hazelcast/jet/sql/impl/inject/HazelcastObjectUpsertTarget.java:51-54 | Dispatches `conclude`. The result and the new state are `ConcludeScratch` of the old state. |
| Upsert.ConvertingTarget.constructor | hazelcast-sql/src/test/java/com/hazelcast/jet/sql/impl/connector/keyvalue/KvProjectorTest.java:124-136 | A test double keeps the converter it was given and starts with a null slot. |
| Upsert.ConvertingTarget.Init | hazelcast-sql/src/test/java/com/hazelcast/jet/sql/impl/connector/keyvalue/KvProjectorTest.java:124-136 | The slot is cleared. The doubles' base class and its `init` are not shown, so clearing is a choice of this model; no test result depends on it. |
| Upsert.ConvertingTarget.Inject | hazelcast-sql/src/test/java/com/hazelcast/jet/sql/impl/connector/keyvalue/KvProjectorTest.java:127 | A successful conversion replaces the slot. A failed one keeps it and reports the failure. |
| Upsert.ConvertingTarget.Conclude | hazelcast-sql/src/test/java/com/hazelcast/jet/sql/impl/connector/keyvalue/KvProjectorTest.java:124-136 | Returns the slot. |
| Upsert.TestConvertersTotal | hazelcast-sql/src/test/java/com/hazelcast/jet/sql/impl/connector/keyvalue/KvProjectorTest.java:124-136 | The doubling converter is defined on every `Integer`, and is exactly `2*v` when that fits in an `int`. The null converter always returns null. |
| KvProjectors.NullMessage | hazelcast-sql/src/test/java/com/hazelcast/jet/sql/impl/connector/keyvalue/KvProjectorTest.java:91 | The texts the tests look for in the messages for a null key (`'__key'`) and a null value (`'this'`). |
| KvProjectors.CreateColumns | hazelcast-sql/src/test/java/com/hazelcast/jet/sql/impl/connector/keyvalue/KvProjectorTest.java:52-57 | One column per field, on the field's side, holding the injector that side's target creates. Failure happens only when some field's injector cannot be created. |
| KvProjectors.Step | hazelcast-sql/src/test/java/com/hazelcast/jet/sql/impl/connector/keyvalue/KvProjectorTest.java:59 | One column's write leaves both targets ready. |
| KvProjectors.Apply | hazelcast-sql/src/test/java/com/hazelcast/jet/sql/impl/connector/keyvalue/KvProjectorTest.java:59 | Writing the columns in order leaves both targets ready. |
| KvProjectors.StoppedStaysStopped | hazelcast-sql/src/test/java/com/hazelcast/jet/sql/impl/connector/keyvalue/KvProjectorTest.java:89 | Once a column's write fails, later columns change nothing. The failure is the first one. |
| KvProjectors.ApplyOneMore | hazelcast-sql/src/test/java/com/hazelcast/jet/sql/impl/connector/keyvalue/KvProjectorTest.java:59 | Writing one more column is one more `Step` on the state the earlier columns left. |
| KvProjectors.NullPolicy | hazelcast-sql/src/test/java/com/hazelcast/jet/sql/impl/connector/keyvalue/KvProjectorTest.java:66-105 | Without the flag, the concluded pair is returned even when null. With it, a null key fails with the `'__key'` message before the value is looked at, and otherwise a null value fails with the `'this'` message. |
| KvProjectors.ProjectSpec | hazelcast-sql/src/test/java/com/hazelcast/jet/sql/impl/connector/keyvalue/KvProjectorTest.java:59-62 | A successful row leaves a JSON or Compact target closed until its next `init`, and a single-slot target holding the object it returned. |
| KvProjectors.Finish | hazelcast-sql/src/test/java/com/hazelcast/jet/sql/impl/connector/keyvalue/KvProjectorTest.java:81-106 | An injector failure is the row's error, and both targets stay as the injectors left them. A successful finish leaves each target closed or holding its result. |
| KvProjectors.ObjectSlotCarriesOver | hazelcast-sql/src/main/java/com/hazelcast/jet/sql/impl/inject/HazelcastObjectUpsertTarget.java:48-54 | With whole-object targets, a following row that writes nothing gives the previous row's result and states again, because `init` keeps the slot that `conclude` left. |
| KvProjectors.KvProjector.constructor | hazelcast-sql/src/test/java/com/hazelcast/jet/sql/impl/connector/keyvalue/KvProjectorTest.java:52-57 | The projector keeps its targets, columns and null flag. |
| KvProjectors.KvProjector.InjectColumn | hazelcast-sql/src/test/java/com/hazelcast/jet/sql/impl/connector/keyvalue/KvProjectorTest.java:59 | Writing one column through the targets performs exactly `Step`. |
| KvProjectors.KvProjector.FinishRow | hazelcast-sql/src/test/java/com/hazelcast/jet/sql/impl/connector/keyvalue/KvProjectorTest.java:81-106 | Concluding and null-checking both targets performs exactly `Finish` on their states. |
| KvProjectors.KvProjector.Project | hazelcast-sql/src/test/java/com/hazelcast/jet/sql/impl/connector/keyvalue/KvProjectorTest.java:59-62 | Projecting a row performs exactly `ProjectSpec`: init both, write the columns in order, conclude and null-check the key, then the value. The result and both targets' states afterwards are those `ProjectSpec` gives, so the next row starts from them. |
| KvProjectors.ConvertingProjector | hazelcast-sql/src/test/java/com/hazelcast/jet/sql/impl/connector/keyvalue/KvProjectorTest.java:52-57 | Builds a projector with an INT key column and an INT value column over two fresh test doubles. |
| KvProjectors.ConvertingRow | hazelcast-sql/src/test/java/com/hazelcast/jet/sql/impl/connector/keyvalue/KvProjectorTest.java:59-62 | With test doubles on both sides, a row (a, b) projects to the converted a and b. The null policy decides only when one of them is null. |
| KvProjectors.DoublingRow | hazelcast-sql/src/test/java/com/hazelcast/jet/sql/impl/connector/keyvalue/KvProjectorTest.java:51-63 | With doubling targets, row (1, 2) projects to key 2 and value 4. |
| KvProjectors.NullsAllowed | hazelcast-sql/src/test/java/com/hazelcast/jet/sql/impl/connector/keyvalue/KvProjectorTest.java:66-78 | With null targets and the flag off, row (1, 2) projects to (null, null) without error. |
| KvProjectors.NullKeyRejected | hazelcast-sql/src/test/java/com/hazelcast/jet/sql/impl/connector/keyvalue/KvProjectorTest.java:81-92 | A null key target with the flag on fails with "Cannot write NULL to '__key' field". |
| KvProjectors.NullValueRejected | hazelcast-sql/src/test/java/com/hazelcast/jet/sql/impl/connector/keyvalue/KvProjectorTest.java:95-106 | A doubling key and a null value target, with the flag on, fail with "Cannot write NULL to 'this' field". |
| KvProjectors.MakeSupplier | hazelcast-sql/src/test/java/com/hazelcast/jet/sql/impl/connector/keyvalue/KvProjectorTest.java:112-117 | The supplier holds each field's path and type in order, both descriptors and the flag. |
| KvProjectors.EncodeSupplier | hazelcast-sql/src/test/java/com/hazelcast/jet/sql/impl/connector/keyvalue/KvProjectorTest.java:109-122 | The stream holds one item per path and per type, plus five more. It starts with the path count and ends with the flag. |
| KvProjectors.DecodeLength | hazelcast-sql/src/test/java/com/hazelcast/jet/sql/impl/connector/keyvalue/KvProjectorTest.java:119 | An array length is read exactly when the next item is a non-negative integer. |
| KvProjectors.DecodeArray | hazelcast-sql/src/test/java/com/hazelcast/jet/sql/impl/connector/keyvalue/KvProjectorTest.java:119 | A successful read of an array consumes its length item and one item per element, and hands back the rest. |
| KvProjectors.DecodeSupplier | hazelcast-sql/src/test/java/com/hazelcast/jet/sql/impl/connector/keyvalue/KvProjectorTest.java:119-121 | A successful read consumes as many items as the returned supplier is written with, and hands back the rest of the stream. |
| KvProjectors.SupplierRoundTrip | hazelcast-sql/src/test/java/com/hazelcast/jet/sql/impl/connector/keyvalue/KvProjectorTest.java:109-122 | A supplier written to a stream and read back equals the original, field by field, and leaves the rest of the stream. |
| KvProjectors.SupplierStreamsAreCanonical | hazelcast-sql/src/test/java/com/hazelcast/jet/sql/impl/connector/keyvalue/KvProjectorTest.java:109-122 | The converse of the round trip: a supplier read from any stream, written again, gives back exactly the items it was read from. |
| Serialization.DecodeString | hazelcast-sql/src/main/java/com/hazelcast/sql/impl/schema/TableField.java:90 | A string is read exactly when the next item is a string, and only that item is consumed. |
| Serialization.DecodeBoolean | hazelcast-sql/src/main/java/com/hazelcast/sql/impl/schema/TableField.java:92 | A boolean is read exactly when the next item is a boolean, and only that item is consumed. |
| Serialization.DecodeObject | hazelcast-sql/src/main/java/com/hazelcast/sql/impl/schema/TableField.java:91 | An object is read exactly when the next item is an object of the expected class. |
| Serialization.DecodeObjects | hazelcast-sql/src/test/java/com/hazelcast/jet/sql/impl/connector/keyvalue/KvProjectorTest.java:119 | Reading n objects yields exactly n of them and consumes n items. |
| Serialization.EncodeObjects | hazelcast-sql/src/test/java/com/hazelcast/jet/sql/impl/connector/keyvalue/KvProjectorTest.java:119 | An array is written as one object item per element, in order. |
| Serialization.DecodedObjectsReencode | hazelcast-sql/src/test/java/com/hazelcast/jet/sql/impl/connector/keyvalue/KvProjectorTest.java:119-121 | Objects read from a stream and written again give back exactly the items they were read from. |
| Serialization.ObjectsRoundTrip | hazelcast-sql/src/test/java/com/hazelcast/jet/sql/impl/connector/keyvalue/KvProjectorTest.java:119-121 | An array of objects written one by one reads back as the same array, and leaves what follows it. |
| Serialization.ObjectDataOutput.WriteString | hazelcast-sql/src/main/java/com/hazelcast/sql/impl/schema/TableField.java:83 | Appends one string item. |
| Serialization.ObjectDataOutput.WriteObject | hazelcast-sql/src/main/java/com/hazelcast/sql/impl/schema/TableField.java:84 | Appends one object item. |
| Serialization.ObjectDataOutput.WriteBoolean | hazelcast-sql/src/main/java/com/hazelcast/sql/impl/schema/TableField.java:85 | Appends one boolean item. |
| Serialization.ObjectDataInput.ReadString | hazelcast-sql/src/main/java/com/hazelcast/sql/impl/schema/TableField.java:90 | Returns and consumes the next string. On a malformed stream it fails and consumes nothing. |
| Serialization.ObjectDataInput.ReadType | hazelcast-sql/src/main/java/com/hazelcast/sql/impl/schema/TableField.java:91 | Returns and consumes the next type object. On a malformed stream it fails and consumes nothing. |
| Serialization.ObjectDataInput.ReadBoolean | hazelcast-sql/src/main/java/com/hazelcast/sql/impl/schema/TableField.java:92 | Returns and consumes the next boolean. On a malformed stream it fails and consumes nothing. |
| TableFields.TableField.constructor | hazelcast-sql/src/main/java/com/hazelcast/sql/impl/schema/TableField.java:38-54 | The getters return exactly the constructor arguments. |
| TableFields.TableField.OfClass | hazelcast-sql/src/main/java/com/hazelcast/sql/impl/schema/TableField.java:38-42 | The same, for an instance of a subclass. |
| TableFields.TableField.Blank | hazelcast-sql/src/main/java/com/hazelcast/sql/impl/schema/TableField.java:35-36 | The no-argument constructor used before `readData`. |
| TableFields.TableField.Equals | hazelcast-sql/src/main/java/com/hazelcast/sql/impl/schema/TableField.java:56-69 | True exactly for a non-null field of the same runtime class with equal name, type and hidden flag. True for the field itself. |
| TableFields.SameIsEquivalence | hazelcast-sql/src/main/java/com/hazelcast/sql/impl/schema/TableField.java:66-68 | Field equality is reflexive, symmetric and transitive. |
| TableFields.TableField.HashCode | hazelcast-sql/src/main/java/com/hazelcast/sql/impl/schema/TableField.java:71-79 | The stepwise accumulator equals `31*(31*h(name)+h(type)) + (hidden?1:0)` wrapped to 32 bits. |
| TableFields.EqualFieldsHashEqually | hazelcast-sql/src/main/java/com/hazelcast/sql/impl/schema/TableField.java:57-79 | Equal fields hash equally, whatever the string and type hashes are. |
| TableFields.TableField.WriteData | hazelcast-sql/src/main/java/com/hazelcast/sql/impl/schema/TableField.java:81-86 | Appends name, type and hidden, in that order. |
| TableFields.TableField.ReadData | hazelcast-sql/src/main/java/com/hazelcast/sql/impl/schema/TableField.java:88-93 | Succeeds exactly when the stream starts with a string, a type and a boolean. It then fills the three fields from them and leaves the rest. |
| TableFields.Decode | hazelcast-sql/src/main/java/com/hazelcast/sql/impl/schema/TableField.java:88-93 | A successful read consumes exactly three items. |
| TableFields.DecodeEncoding | hazelcast-sql/src/main/java/com/hazelcast/sql/impl/schema/TableField.java:81-93 | Reading what `writeData` wrote gives back name, type and hidden, and leaves the rest of the stream. |
| TableFields.SerializationRoundTrip | hazelcast-sql/src/main/java/com/hazelcast/sql/impl/schema/TableField.java:81-93 | A field written and then read into a blank instance of its class is equal to the original. |
| TypeRegistry.CreateType | hazelcast-sql/src/test/java/com/hazelcast/jet/sql/impl/type/BasicNestedFieldsTest.java:110-114 | Declaring a type adds its name with its fields and leaves every other declaration alone. |
| TypeRegistry.DeclarationOrder | hazelcast-sql/src/test/java/com/hazelcast/jet/sql/impl/type/BasicNestedFieldsTest.java:121-123 | Declarations of distinct names commute, so a type may name one declared after it. |
| TypeRegistry.Refs | hazelcast-sql/src/test/java/com/hazelcast/jet/sql/impl/type/BasicNestedFieldsTest.java:121-123 | The referenced names are exactly the composite field types. |
| TypeRegistry.ClosedHoldsChains | hazelcast-sql/src/test/java/com/hazelcast/jet/sql/impl/type/BasicNestedFieldsTest.java:494-497 | A closed set of declared types contains the end of every reference chain that starts in it. |
| TypeRegistry.PathType | hazelcast-sql/src/test/java/com/hazelcast/jet/sql/impl/type/BasicNestedFieldsTest.java:137-146 | The empty path has the type itself. A typed path starts with a declared field of a declared type, and only its last hop may name a scalar field. |
| TypeRegistry.ResolveType | hazelcast-sql/src/test/java/com/hazelcast/jet/sql/impl/type/BasicNestedFieldsTest.java:121-126 | On success, the visited types form a closed set containing the root. On failure, a reference chain from the root reaches an undeclared name. The error names it as "Encountered type '<name>', which doesn't exist", and no closed set contains the root. |
| TypeRegistry.ExtendChain | hazelcast-sql/src/test/java/com/hazelcast/jet/sql/impl/type/BasicNestedFieldsTest.java:494-497 | A chain extended by a reference of its last type is still a chain from the same root. |
| TypeRegistry.NoClosedSet | hazelcast-sql/src/test/java/com/hazelcast/jet/sql/impl/type/BasicNestedFieldsTest.java:494-497 | A chain from the root to an undeclared type rules out every closed set that contains the root. |
| TypeRegistry.ResolveClosed | hazelcast-sql/src/test/java/com/hazelcast/jet/sql/impl/type/BasicNestedFieldsTest.java:121-126 | Whenever some closed set contains the root, resolution succeeds. |
| TypeRegistry.UserTypesResolve | hazelcast-sql/src/test/java/com/hazelcast/jet/sql/impl/type/BasicNestedFieldsTest.java:120-126 | `UserType` names `OrganizationType` before it is declared, and it resolves once all three types exist. |
| TypeRegistry.MissingTypeRejected | hazelcast-sql/src/test/java/com/hazelcast/jet/sql/impl/type/BasicNestedFieldsTest.java:492-498 | Without `OrganizationType`, resolving `UserType` fails with "Encountered type 'OrganizationType', which doesn't exist". |
| TypeRegistry.SelfRefTypeResolves | hazelcast-sql/src/test/java/com/hazelcast/jet/sql/impl/type/BasicNestedFieldsTest.java:217-218 | A type whose `other` field has its own type resolves. |
| TypeRegistry.Repeat | hazelcast-sql/src/test/java/com/hazelcast/jet/sql/impl/type/BasicNestedFieldsTest.java:233-238 | `other` repeated k times is a path of length k. |
| TypeRegistry.SelfReferenceAnyDepth | hazelcast-sql/src/test/java/com/hazelcast/jet/sql/impl/type/BasicNestedFieldsTest.java:233-238 | In the self-referential type, `other` taken any number of times and then `name` has type VARCHAR. |
| TypeRegistry.CircularTypesClosed | hazelcast-sql/src/test/java/com/hazelcast/jet/sql/impl/type/BasicNestedFieldsTest.java:252-254 | The types A, B and C, each naming the next and C naming A, form a closed set of declared types. |
| TypeRegistry.CircularTypesResolve | hazelcast-sql/src/test/java/com/hazelcast/jet/sql/impl/type/BasicNestedFieldsTest.java:252-254 | The mutually recursive types A→B→C→A resolve. |
| TypeRegistry.CircularPathTypes | hazelcast-sql/src/test/java/com/hazelcast/jet/sql/impl/type/BasicNestedFieldsTest.java:267 | `b.c.a.name` from `AType` has type VARCHAR. |
| TypeRegistry.IndexOf | hazelcast-sql/src/test/java/com/hazelcast/jet/sql/impl/type/BasicNestedFieldsTest.java:137-146 | Finds a field's position by name, or reports that no field has that name. |
| TypeRegistry.FieldTypeOf | hazelcast-sql/src/test/java/com/hazelcast/jet/sql/impl/type/BasicNestedFieldsTest.java:137-146 | A field's type is found exactly when the type declares a field of that name, and it is that field's type. |
| TypeRegistry.ReadPath | hazelcast-sql/src/test/java/com/hazelcast/jet/sql/impl/type/BasicNestedFieldsTest.java:137-146 | The empty path reads the row itself. A readable path starts with a declared field of a declared type, and anything read from a null composite is null. |
| TypeRegistry.ReadsAreTyped | hazelcast-sql/src/test/java/com/hazelcast/jet/sql/impl/type/BasicNestedFieldsTest.java:137-146 | Every path that can be read from a row is a path the declared types give a type to. |
| TypeRegistry.NullCompositeReadsNull | hazelcast-sql/src/test/java/com/hazelcast/jet/sql/impl/type/BasicNestedFieldsTest.java:507-508 | Any typed path read from a null composite is null. |
| TypeRegistry.DeepInsertReadsBack | hazelcast-sql/src/test/java/com/hazelcast/jet/sql/impl/type/BasicNestedFieldsTest.java:270-281 | The nested row tuple of user 2, read as stored, gives "user2", "organization2" and "office2" at the three depths; the INSERT that stores it is not modelled here. |
| TypeRegistry.NullNestedOfficeReadsNull | hazelcast-sql/src/test/java/com/hazelcast/jet/sql/impl/type/BasicNestedFieldsTest.java:500-509 | An organisation row whose office is null, read as stored, gives a null `office` and a null `office.name`; the Compact write that stores it is not modelled here. |
| ObjectGraph.Pojo.constructor | hazelcast-sql/src/test/java/com/hazelcast/jet/sql/impl/type/BasicNestedFieldsTest.java:597-606 | An object of a given class with the given fields set. The rest hold Java's default, null. |
| ObjectGraph.Deref | hazelcast-sql/src/test/java/com/hazelcast/jet/sql/impl/type/BasicNestedFieldsTest.java:137-146 | The empty path reads the slot itself, and any path through null reads null. |
| ObjectGraph.DerefConcat | hazelcast-sql/src/test/java/com/hazelcast/jet/sql/impl/type/BasicNestedFieldsTest.java:137-146 | Reading `p.q` is reading `q` from what `p` reaches. |
| ObjectGraph.FollowAdd | hazelcast-sql/src/test/java/com/hazelcast/jet/sql/impl/type/BasicNestedFieldsTest.java:233-238 | a + b hops along a field are a hops followed by b more. |
| ObjectGraph.RingWithin | hazelcast-sql/src/test/java/com/hazelcast/jet/sql/impl/type/BasicNestedFieldsTest.java:226-229 | On a ring, r < n hops from the first object reach object r. |
| ObjectGraph.RingHops | hazelcast-sql/src/test/java/com/hazelcast/jet/sql/impl/type/BasicNestedFieldsTest.java:226-246 | On a ring of n objects, q·n + r hops from the first reach object r. |
| ObjectGraph.NewSelfRef | hazelcast-sql/src/test/java/com/hazelcast/jet/sql/impl/type/BasicNestedFieldsTest.java:638-641 | `new SelfRef(id, name)` sets id and name and leaves `other` null. |
| ObjectGraph.SelfRefRing | hazelcast-sql/src/test/java/com/hazelcast/jet/sql/impl/type/BasicNestedFieldsTest.java:220-229 | The four SelfRef objects, linked by mutation into a ring through `other`. |
| ObjectGraph.SelfRefReads | hazelcast-sql/src/test/java/com/hazelcast/jet/sql/impl/type/BasicNestedFieldsTest.java:233-246 | From the first object, 0 to 4 hops of `other` followed by `name` read "first", "second", "third", "fourth" and "first". |
| ObjectGraph.RingOfFour | hazelcast-sql/src/test/java/com/hazelcast/jet/sql/impl/type/BasicNestedFieldsTest.java:226-246 | k hops along a ring of four reach object k mod 4. |
| ObjectGraph.CircularObjects | hazelcast-sql/src/test/java/com/hazelcast/jet/sql/impl/type/BasicNestedFieldsTest.java:256-267 | With a.b = b, b.c = c and c.a = a, reading `b.c.a` from `a` gives `a` itself, and `b.c.a.name` gives "a". |
| ObjectGraph.Equal | hazelcast-sql/src/test/java/com/hazelcast/jet/sql/impl/type/BasicNestedFieldsTest.java:683-694 | An object equals itself. Distinct objects are equal only when both are non-null, of the same class, and that class overrides `equals`. A, B, C and SelfRef keep identity equality. |
| ObjectGraph.Hash | hazelcast-sql/src/test/java/com/hazelcast/jet/sql/impl/type/BasicNestedFieldsTest.java:597-641 | A null object hashes to 0. A, B, C and SelfRef do not override `hashCode`, so they hash by identity, whatever their fields hold. The overriding classes fold `Objects.hash` over their fields, and equal objects hash equally (`EqualObjectsHashEqually`). |
| ObjectGraph.EqualReflexive | hazelcast-sql/src/test/java/com/hazelcast/jet/sql/impl/type/BasicNestedFieldsTest.java:683-686 | Every object equals itself, through the identity shortcut. |
| ObjectGraph.EqualSymmetric | hazelcast-sql/src/test/java/com/hazelcast/jet/sql/impl/type/BasicNestedFieldsTest.java:683-694 | Fixture `equals` is symmetric. |
| ObjectGraph.FieldsEqualSymmetric | hazelcast-sql/src/test/java/com/hazelcast/jet/sql/impl/type/BasicNestedFieldsTest.java:691-693 | Field-by-field `Objects.equals` is symmetric. |
| ObjectGraph.SlotEqualSymmetric | hazelcast-sql/src/test/java/com/hazelcast/jet/sql/impl/type/BasicNestedFieldsTest.java:691-693 | `Objects.equals` on field contents is symmetric. |
| ObjectGraph.EqualTransitive | hazelcast-sql/src/test/java/com/hazelcast/jet/sql/impl/type/BasicNestedFieldsTest.java:683-694 | Fixture `equals` is transitive. |
| ObjectGraph.FieldsEqualTransitive | hazelcast-sql/src/test/java/com/hazelcast/jet/sql/impl/type/BasicNestedFieldsTest.java:691-693 | Field-by-field `Objects.equals` is transitive. |
| ObjectGraph.SlotEqualTransitive | hazelcast-sql/src/test/java/com/hazelcast/jet/sql/impl/type/BasicNestedFieldsTest.java:691-693 | `Objects.equals` on field contents is transitive. |
| ObjectGraph.EqualObjectsHashEqually | hazelcast-sql/src/test/java/com/hazelcast/jet/sql/impl/type/BasicNestedFieldsTest.java:683-699 | Equal objects have equal hash codes, whatever the identity hash and the scalars' hash are. |
| ObjectGraph.EqualFieldsHashEqually | hazelcast-sql/src/test/java/com/hazelcast/jet/sql/impl/type/BasicNestedFieldsTest.java:697-699 | Equal fields fold to equal hashes from any starting accumulator. |
| ObjectGraph.EqualSlotsHashEqually | hazelcast-sql/src/test/java/com/hazelcast/jet/sql/impl/type/BasicNestedFieldsTest.java:697-699 | Equal field contents hash equally. |
| ObjectGraph.FieldwiseEqual | hazelcast-sql/src/test/java/com/hazelcast/jet/sql/impl/type/BasicNestedFieldsTest.java:691-693 | Agreement on every listed field is what the field-by-field comparison checks. |
| ObjectGraph.ClassesDiffer | hazelcast-sql/src/test/java/com/hazelcast/jet/sql/impl/type/BasicNestedFieldsTest.java:687-689 | Objects of different classes are never equal, for instance an `Organization` and a `NonprofitOrganization`. |
| ObjectGraph.NewOffice | hazelcast-sql/src/test/java/com/hazelcast/jet/sql/impl/type/BasicNestedFieldsTest.java:841-844 | `new Office(id, name)` sets both fields. |
| ObjectGraph.NewOrganization | hazelcast-sql/src/test/java/com/hazelcast/jet/sql/impl/type/BasicNestedFieldsTest.java:719-723 | `new Organization(id, name, office)` sets the three fields. |
| ObjectGraph.NewUser | hazelcast-sql/src/test/java/com/hazelcast/jet/sql/impl/type/BasicNestedFieldsTest.java:652-656 | `new User(id, name, organization)` sets the three fields. |
| ObjectGraph.EqualOffices | hazelcast-sql/src/test/java/com/hazelcast/jet/sql/impl/type/BasicNestedFieldsTest.java:863-872 | Offices with equal ids and names are equal. |
| ObjectGraph.EqualOrganizations | hazelcast-sql/src/test/java/com/hazelcast/jet/sql/impl/type/BasicNestedFieldsTest.java:750-761 | Organizations with equal ids and names and equal offices are equal. |
| ObjectGraph.EqualUsers | hazelcast-sql/src/test/java/com/hazelcast/jet/sql/impl/type/BasicNestedFieldsTest.java:683-694 | Users with equal ids and names and equal organizations are equal. |
| ObjectGraph.DefaultUser | hazelcast-sql/src/test/java/com/hazelcast/jet/sql/impl/type/BasicNestedFieldsTest.java:128-146 | The default user reads "user1", "organization1", "office1" and office id 3 along its dotted paths. |
| ObjectGraph.EqualCopies | hazelcast-sql/src/test/java/com/hazelcast/jet/sql/impl/type/BasicNestedFieldsTest.java:683-699 | Two users built separately from the same values are distinct objects that are equal and hash equally. |
| Values.Wrap32 | hazelcast-sql/src/main/java/com/hazelcast/sql/impl/schema/TableField.java:75-76 | Java `int` overflow: the result is an `int`, congruent to the exact value modulo 2^32, and equal to it when it already fits. |
| Values.WrapStep | hazelcast-sql/src/main/java/com/hazelcast/sql/impl/schema/TableField.java:75-76 | Wrapping after every step of a `31*h + x` accumulator is the same as wrapping once at the end. |

## Left out

- Jackson's byte-level JSON encoding is not modelled: escaping, number
  formatting and `JsonFactory`. The output is a sequence of tokens, and
  `conclude` returns those tokens rather than bytes.
- The `IOException` paths through `sneakyThrow` are not modelled. These are
  writes to an in-memory buffer, and the model has no I/O.
- REAL, DOUBLE, FLOAT32 and FLOAT64 values are opaque tagged values. Nothing
  arithmetic is proved about them.
- `QueryDataType.convert` coercions, `customTypeConverter` and
  `convertRowToCompactType` are not part of this model. Each is a function
  parameter, and the lemmas hold for any such function.
- Json.CreateInjector: the "Unsupported type: " message ends with the type
  family's name. `QueryDataType.toString` is not part of this model.
- `FAILING_TOP_LEVEL_INJECTOR` is not part of this model. Its failure is a
  distinct error without its message text.
- `KvProjector` and `KvProjector.Supplier` themselves are not part of this
  model. Their behaviour is taken from what `KvProjectorTest` asserts.
- KvProjectors.DecodeSupplier: the supplier's stream is modelled as
  - the field count;
  - the paths and types as objects;
  - the two descriptors;
  - the flag.

  The real wire format is not shown.
- Creating a target from an `UpsertTargetDescriptor` is left out. The
  descriptor classes are not part of this model.
- Cluster and SQL engine machinery is left out: the parser, the planner,
  joins, and the Kafka, Avro and Portable mapping options. Only the type
  registry, resolution and path behaviour the tests assert is modelled.
- Concurrency is left out. Every target is `@NotThreadSafe` and has one
  owner here.
- ObjectGraph.Equal, ObjectGraph.Hash: a `fuel` bound limits the depth of
  nested `equals` and `hashCode` calls. Without it the Java code would recurse
  forever on a cyclic graph of classes that override `equals`. The lemmas
  hold for every bound.
- KvProjectors.NullMessage: the tests check only that the error message
  contains "Cannot write NULL to '__key' field" or "Cannot write NULL to
  'this' field". `KvProjector.java` is not part of this model, so the real
  message may carry more text. The model's message, and so the one
  `NullPolicy`, `NullKeyRejected` and `NullValueRejected` state, is that text
  alone. When both the key and the value are null, the model reports the key.
  The tests never make both null, so that order is the model's own choice.
- TypeRegistry.ResolveType: when several declared types name missing
  types, the model does not fix which missing name is reported. The visiting
  order of the real resolver is not shown.
- TableFields.TableField.ReadData: when a read fails part-way, the fields
  already filled keep their new values, as in Java. The contract states the
  new state only for a read that succeeds.
- TypeRegistry.CreateType: declaring an existing name again replaces the
  old declaration. What the real registry does in that case is not shown.
- CompactFormat.CompactUpsertTarget.Conclude: the record builder
  (`DeserializedSchemaBoundGenericRecordBuilder`) is not part of this model.
  The model assumes three things about it. A setter may overwrite a field
  already set. A setter checks nothing against the schema beyond the cast.
  `build()` always succeeds, whatever fields were left unset. The same
  assumptions underlie `CompactFormat.Set` and
  `CompactFormat.CompactUpsertTarget.Inject`.
- TableFields.TableField.Blank: in Java the no-argument constructor leaves
  `name` and `type` null, and `readString`/`readObject` may also return null.
  `equals` and `hashCode` would then throw a `NullPointerException`. The
  model's fields cannot be null: `Blank` fills them with placeholders (`""`
  and a NULL-family type), and null names, null types and those exceptions
  are not modelled.
- TypeRegistry.DeepInsertReadsBack, TypeRegistry.NullNestedOfficeReadsNull:
  only the read of the stored tuple is modelled. The INSERT that stores it
  goes through `customTypeConverter` or `convertRowToCompactType`, which are
  not part of this model, so the lemmas start from the stored tuple.
- Compact setters assume the builder exists, that is, a write comes after
  `init` and before `conclude`. Java would throw a `NullPointerException`
  otherwise.
