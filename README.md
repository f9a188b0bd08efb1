# msagimport core, modelled in Dafny

This project models the three pieces of sequential logic in the msagimport /
magimport tools, which sit on top of the Gradoop graph framework:

- **`TableSchema` and its `Builder`** (module `TableSchemas`). The builder
  collects a schema name, an object type and two index-aligned column lists
  (field types and field names). `build` throws `IllegalStateException` when
  no name is set. The built schema renders itself as
  `"<type> <name>:<fieldType> <fieldName>, ..."`. The schema does not copy
  the builder's lists: it holds `Collections.unmodifiableList` views of them.
  The model captures this by sharing the same `ColumnList` objects, so a
  column added to the builder after `build` is visible through the schema
  (`AddFieldAfterBuild`). `SCOPE_SEPARATOR` is the constant `ScopeSeparator`.
- **Attribute-map splitting** (module `SplitAttributes`). One generic rewrite
  covers vertices and edges. It reads the map-valued property at
  `propertyKey` and builds a fresh property bag in two loops:
  - first, every entry with a non-null, non-empty string key becomes a `long`
    property (`ExpandEntries`);
  - then every other original property except `propertyKey` is copied over
    (`CopyOthers`), so an original property wins over a map entry of the
    same name.

  The fresh bag then replaces the element's properties (`SplitElement`).
  Identity, label and endpoints are outside the method's frame. The pure
  function `Split` is the reference the method is proved against. Its
  contract states the exact key set, the clash rule and the values.
- **`AttributeSetAggregator`** (module `AttributeSetAggregation`). This is a
  class whose nullable `HashSet<String>` field is an `Option<set<string>>`.
  - `initializeAggregate` replaces the set with the pieces of a string split
    on `;`.
  - `aggregateInternal` adds those pieces to the set.
  - `getAggregateInternal` joins the set with `;` in the order of some
    enumeration of it. The model leaves that order unspecified.
  - `resetAggregate` empties an initialized set. The aggregator stays
    initialized afterwards.

  Java's `String.split(";")` is modelled exactly in module `JavaStrings`:
  - a string without `;` comes back whole, so `""` gives `[""]`;
  - otherwise trailing empty pieces are dropped, so `";"` gives `[]` and
    `"a;"` gives `["a"]`;
  - interior empty pieces are kept.

Errors are values. `Result`, `Outcome` and `Option` come from module
`Wrappers`. `AccessError` distinguishes a `null` dereference
(`NullReference`) from reading a property value with the wrong accessor
(`TypeMismatch`).

Behaviour of the code that the model keeps, though a reader might expect otherwise:
- A built schema is not frozen: its lists are live views of the builder's lists.
- `resetAggregate` does not return the aggregator to the uninitialized state.
  It leaves an empty, non-null set.
- Splitting does leave a `propertyKey` property behind when the map itself
  has an entry with that key.
- A string that is empty contributes the attribute name `""`, not nothing
  (`NamesOf`). An empty set reads out as `""`, which splits back to `{""}`.

## Model

| member | source | states |
|---|---|---|
| `JavaStrings.Split` | msagimport-grouping/src/main/java/one/p_f/testing/msagimport/grouping/aggregation/AttributeSetAggregator.java:44 | no piece contains the delimiter; the result is empty exactly when the string is non-empty and consists of delimiters only |
| `JavaStrings.SplitExamples` | msagimport-grouping/src/main/java/one/p_f/testing/msagimport/grouping/aggregation/AttributeSetAggregator.java:51 | `""` splits to `[""]`, `";"` to `[]`, `"a;"` to `["a"]`, `"a;;b"` to `["a","","b"]`, `";a"` to `["","a"]` |
| `JavaStrings.SplitJoin` | msagimport-grouping/src/main/java/one/p_f/testing/msagimport/grouping/aggregation/AttributeSetAggregator.java:55-59 | splitting the `;`-join of a non-empty list of non-empty, `;`-free names gives the list back |
| `JavaStrings.PiecesJoin` | msagimport-grouping/src/main/java/one/p_f/testing/msagimport/grouping/aggregation/AttributeSetAggregator.java:44 | joining the pieces of a string around every delimiter, empty pieces included, gives the string back |
| `JavaStrings.JoinAppend` | magimport-parse/src/main/java/org/gradoop/examples/io/mag/magimport/data/TableSchema.java:204-207 | joining one more part appends the separator and the part, or just the part when it is the first |
| `TableSchemas.Builder.constructor` | magimport-parse/src/main/java/org/gradoop/examples/io/mag/magimport/data/TableSchema.java:62-66 | a fresh builder has no name, no type and two new, empty, aligned column lists |
| `TableSchemas.Builder.SetObjectType` | magimport-parse/src/main/java/org/gradoop/examples/io/mag/magimport/data/TableSchema.java:74-77 | overwrites only the object type (the frame leaves name and columns alone) and returns the same builder |
| `TableSchemas.Builder.SetSchemaName` | magimport-parse/src/main/java/org/gradoop/examples/io/mag/magimport/data/TableSchema.java:85-88 | overwrites only the schema name, `null` included, and returns the same builder |
| `TableSchemas.Builder.AddField` | magimport-parse/src/main/java/org/gradoop/examples/io/mag/magimport/data/TableSchema.java:97-101 | appends the type to the types and the name to the names, so both lists grow by one and stay index-aligned |
| `TableSchemas.Builder.Build` | magimport-parse/src/main/java/org/gradoop/examples/io/mag/magimport/data/TableSchema.java:109-119 | fails with "No schema name set." exactly when no name is set (a missing type is not checked); otherwise a new schema with the builder's name and type and the builder's own list objects |
| `TableSchemas.AddFieldAfterBuild` | magimport-parse/src/main/java/org/gradoop/examples/io/mag/magimport/data/TableSchema.java:116-117 | a column added after `build` is visible through the already-built schema |
| `TableSchemas.TableSchema.ToString` | magimport-parse/src/main/java/org/gradoop/examples/io/mag/magimport/data/TableSchema.java:202-208 | fails (`NullPointerException`) exactly when no type is set; otherwise starts with `"<type> <name>:"`, and is exactly that header when there are no columns |
| `TableSchemas.RenderAddField` | magimport-parse/src/main/java/org/gradoop/examples/io/mag/magimport/data/TableSchema.java:202-208 | one more column appends `"<fieldType> <fieldName>"` to the rendering, after `", "` unless it is the first |
| `SplitAttributes.Expanded` | magimport-grouping/src/main/java/org/gradoop/examples/io/mag/magimport/grouping/transformation/SplitAttributes.java:52-56 | the entries produce exactly the non-empty string keys as names, each holding the long stored under that key |
| `SplitAttributes.Split` | magimport-grouping/src/main/java/org/gradoop/examples/io/mag/magimport/grouping/transformation/SplitAttributes.java:46-64 | fails when the property is absent, not a map, has a non-string key, or has a non-long value under a non-empty key; otherwise the keys are exactly the map's non-empty keys plus the other original keys, originals keep their values and win clashes, and `propertyKey` survives only as a map key |
| `SplitAttributes.ExpandEntries` | magimport-grouping/src/main/java/org/gradoop/examples/io/mag/magimport/grouping/transformation/SplitAttributes.java:50-56 | the first loop succeeds exactly on a readable map and then yields `Expanded` of it; otherwise a type mismatch |
| `SplitAttributes.CopyOthers` | magimport-grouping/src/main/java/org/gradoop/examples/io/mag/magimport/grouping/transformation/SplitAttributes.java:57-60 | the second loop adds every original key but `propertyKey` with its original value, overwriting, and keeps the rest of the new bag |
| `SplitAttributes.SplitElement` | magimport-grouping/src/main/java/org/gradoop/examples/io/mag/magimport/grouping/transformation/SplitAttributes.java:46-64 | on success the element's properties become `Split` of the old ones and the same element is returned; on failure nothing changes; id, label and endpoints never change |
| `AttributeSetAggregation.NamesOf` | msagimport-grouping/src/main/java/one/p_f/testing/msagimport/grouping/aggregation/AttributeSetAggregator.java:43-44 | no name contains `;`; the empty string contributes the name `""` |
| `AttributeSetAggregation.FoldIsUnion` | msagimport-grouping/src/main/java/one/p_f/testing/msagimport/grouping/aggregation/AttributeSetAggregator.java:47-53 | merging a sequence of strings one by one adds exactly the union of their names |
| `AttributeSetAggregation.OrderAndRepeatsIrrelevant` | msagimport-grouping/src/main/java/one/p_f/testing/msagimport/grouping/aggregation/AttributeSetAggregator.java:52 | merging is commutative and idempotent: any two sequences of the same strings give the same set |
| `AttributeSetAggregation.AttributeSetAggregator.constructor` | msagimport-grouping/src/main/java/one/p_f/testing/msagimport/grouping/aggregation/AttributeSetAggregator.java:30-34 | a new aggregator is uninitialized |
| `AttributeSetAggregation.Lifecycle` | msagimport-grouping/src/main/java/one/p_f/testing/msagimport/grouping/aggregation/AttributeSetAggregator.java:30-66 | the aggregator is initialized exactly when its set is present: a new one is not; a string given to `initializeAggregate` initializes it; any sequence of later `aggregateInternal` and `resetAggregate` calls, in any order and number, keeps it initialized |
| `AttributeSetAggregation.AttributeSetAggregator.InitializeAggregate` | msagimport-grouping/src/main/java/one/p_f/testing/msagimport/grouping/aggregation/AttributeSetAggregator.java:41-45 | a string value replaces the state by exactly its names, whatever was there; a non-string throws and changes nothing; no stored name contains `;` |
| `AttributeSetAggregation.AttributeSetAggregator.AggregateInternal` | msagimport-grouping/src/main/java/one/p_f/testing/msagimport/grouping/aggregation/AttributeSetAggregator.java:47-53 | requires an initialized aggregator; the new set is the old set plus the names of the value, so nothing is lost; a non-string throws and changes nothing |
| `AttributeSetAggregation.AttributeSetAggregator.GetAggregateInternal` | msagimport-grouping/src/main/java/one/p_f/testing/msagimport/grouping/aggregation/AttributeSetAggregator.java:55-59 | changes nothing; returns the `;`-join of some enumeration of the set; for a non-empty set of non-empty names, splitting the result gives the set back |
| `AttributeSetAggregation.AttributeSetAggregator.ResetAggregate` | msagimport-grouping/src/main/java/one/p_f/testing/msagimport/grouping/aggregation/AttributeSetAggregator.java:61-66 | an initialized aggregator is left initialized with an empty set; an uninitialized one is left as it is |

## Left out

- The command-line entry point (`GroupingMain.java`) is not modelled. It consists of argument handling, output-directory checks and `mkdirs`, the Flink execution environment, the JSON source, the DOT sink and job submission. These are I/O and framework calls.
- Label-based grouping (`groupBy` with the label symbol) is Gradoop's own operator and is not shown. The aggregator is not wired into it either.
- The `SplitAttributes` constructor's wrapping of the rewrite in a Gradoop `Transformation`, and `execute`, are distributed-dataflow framework calls. The rewrite itself is `SplitElement`, written once for vertices and edges.
- The dispatch of the `PropertyValueAggregator` base class is not part of this model: when it calls initialize rather than aggregate, and how it skips elements without the property. An initialized aggregator is therefore a precondition of `AggregateInternal` and `GetAggregateInternal`. The `NullPointerException` that the Java code throws on a `null` set is not modelled.
- The iteration order of `HashSet` is not modelled. `GetAggregateInternal` promises only some enumeration of the set.
- The insertion order of Gradoop's `Properties` is not modelled. A property bag is a `map`, which is all the two loops' result depends on.
- Gradoop's `PropertyValue` is reduced to its string, long and map tags, and its serialization is not modelled. Map values that are Java `null` are not modelled (`getLong` on them would throw).
- `FieldType.java` and `ObjectType.java` are not part of this model. A constant of either enumeration is represented only by the text its `toString` returns, which is all that `toString` of a schema uses.
- Null arguments to `addField` are not modelled: a `null` type would make `toString` throw, and a `null` name would render as `null`.
- Mutators called through the unmodifiable views (which throw `UnsupportedOperationException`) are not modelled. The schema exposes no mutator.
- `SCOPE_SEPARATOR` is a non-final static field in Java. The model has it as the constant `ScopeSeparator`, and reassigning it is not modelled.
- `JavaStrings.Split` covers `String.split` only for a one-character delimiter that is not a regular-expression metacharacter, with the default limit. That is the only way the core calls it.
- `Serializable`, concurrency and parallel execution are not modelled.


