/**
 * The schema of an imported table (its name, object type, and the types and
 * names of its columns) and the staged builder that produces it.
 */
module TableSchemas {
  import opened Wrappers
  import JavaStrings

  /** A constant of the column-type enumeration, known only by the text its `toString` returns. */
  datatype FieldType = FieldType(text: string)

  /** A constant of the table-type enumeration, known only by the text its `toString` returns. */
  datatype ObjectType = ObjectType(text: string)

  /** Separates a schema name from a field id in composite keys. */
  const ScopeSeparator: char := ':'

  /** Why `build` throws: `IllegalStateException` with this message. */
  datatype BuildError = IllegalState(message: string)

  /** A growable list object, shared by reference between a builder and its schemas. */
  class ColumnList<T> {
    var elems: seq<T>

    constructor ()
      ensures elems == []
    {
      elems := [];
    }

    method Add(x: T)
      modifies this
      ensures elems == old(elems) + [x]
    {
      elems := elems + [x];
    }
  }

  /** The column lists are index-aligned: the i-th type belongs to the i-th name. */
  ghost predicate Aligned(fieldTypes: ColumnList<FieldType>, fieldNames: ColumnList<string>)
    reads fieldTypes, fieldNames
  {
    |fieldTypes.elems| == |fieldNames.elems|
  }

  /** One column rendered as "fieldType fieldName". */
  function Column(t: FieldType, name: string): string
  {
    t.text + " " + name
  }

  /**
   * The text of a schema: "type name:" followed by its columns, index by
   * index, separated by ", ".
   */
  function Render(t: ObjectType, schemaName: string, types: seq<FieldType>, names: seq<string>): string
    requires |types| == |names|
  {
    t.text + " " + schemaName + ":"
      + JavaStrings.Join(seq(|names|, i requires 0 <= i < |names| => Column(types[i], names[i])), ", ")
  }

  /** Adding a column appends it to the rendering, after ", " unless it is the first. */
  lemma RenderAddField(t: ObjectType, schemaName: string, types: seq<FieldType>, names: seq<string>,
                       ft: FieldType, fn: string)
    requires |types| == |names|
    ensures Render(t, schemaName, types + [ft], names + [fn])
         == Render(t, schemaName, types, names) + (if names == [] then "" else ", ") + Column(ft, fn)
  {
    var before := seq(|names|, i requires 0 <= i < |names| => Column(types[i], names[i]));
    var types', names' := types + [ft], names + [fn];
    var after := seq(|names'|, i requires 0 <= i < |names'| => Column(types'[i], names'[i]));
    assert after == before + [Column(ft, fn)];
    JavaStrings.JoinAppend(before, ", ", Column(ft, fn));
  }

  /**
   * A built schema. Its column lists are the builder's own list objects, seen
   * read-only: the schema never changes them, but the builder still can.
   */
  class TableSchema {
    var schemaName: string
    var objectType: Option<ObjectType>
    var fieldTypes: ColumnList<FieldType>
    var fieldNames: ColumnList<string>

    /** The column lists are index-aligned. */
    ghost predicate Valid()
      reads this, fieldTypes, fieldNames
    {
      Aligned(fieldTypes, fieldNames)
    }

    constructor (schemaName: string, objectType: Option<ObjectType>,
                 fieldTypes: ColumnList<FieldType>, fieldNames: ColumnList<string>)
      ensures this.schemaName == schemaName && this.objectType == objectType
      ensures this.fieldTypes == fieldTypes && this.fieldNames == fieldNames
    {
      this.schemaName := schemaName;
      this.objectType := objectType;
      this.fieldTypes := fieldTypes;
      this.fieldNames := fieldNames;
    }

    function GetSchemaName(): string
      reads this
    {
      schemaName
    }

    function GetType(): Option<ObjectType>
      reads this
    {
      objectType
    }

    function GetFieldTypes(): seq<FieldType>
      reads this, fieldTypes
    {
      fieldTypes.elems
    }

    function GetFieldNames(): seq<string>
      reads this, fieldNames
    {
      fieldNames.elems
    }

    /**
     * The schema as text; `None` stands for the `NullPointerException` thrown
     * when no object type was set.
     */
    function ToString(): (r: Option<string>)
      reads this, fieldTypes, fieldNames
      requires Valid()
      ensures r.None? <==> objectType.None?
      ensures r.Some? ==> objectType.value.text + " " + schemaName + ":" <= r.value
      ensures r.Some? && fieldNames.elems == [] ==> r.value == objectType.value.text + " " + schemaName + ":"
    {
      if objectType.None? then None
      else Some(Render(objectType.value, schemaName, fieldTypes.elems, fieldNames.elems))
    }
  }

  /** Accumulates the parts of a `TableSchema`. */
  class Builder {
    var schemaName: Option<string>
    var objectType: Option<ObjectType>
    const fieldTypes: ColumnList<FieldType>
    const fieldNames: ColumnList<string>

    /** The column lists are index-aligned. */
    ghost predicate Valid()
      reads this, fieldTypes, fieldNames
    {
      Aligned(fieldTypes, fieldNames)
    }

    /** A builder with no name, no type and no columns. */
    constructor ()
      ensures Valid()
      ensures schemaName == None && objectType == None
      ensures fieldTypes.elems == [] && fieldNames.elems == []
      ensures fresh(fieldTypes) && fresh(fieldNames)
    {
      schemaName := None;
      objectType := None;
      fieldTypes := new ColumnList();
      fieldNames := new ColumnList();
    }

    /** Sets the object type (a later call wins) and returns this builder. */
    method SetObjectType(t: Option<ObjectType>) returns (b: Builder)
      modifies this`objectType
      ensures b == this && objectType == t
    {
      objectType := t;
      return this;
    }

    /** Sets the schema name (a later call wins) and returns this builder. */
    method SetSchemaName(name: Option<string>) returns (b: Builder)
      modifies this`schemaName
      ensures b == this && schemaName == name
    {
      schemaName := name;
      return this;
    }

    /** Appends one column: its type to the types, its name to the names. */
    method AddField(t: FieldType, name: string) returns (b: Builder)
      requires Valid()
      modifies fieldTypes, fieldNames
      ensures Valid() && b == this
      ensures fieldTypes.elems == old(fieldTypes.elems) + [t]
      ensures fieldNames.elems == old(fieldNames.elems) + [name]
    {
      fieldTypes.Add(t);
      fieldNames.Add(name);
      return this;
    }

    /**
     * The schema with this builder's name, type and column lists, or an
     * `IllegalStateException` when no name is set. The schema shares the
     * builder's list objects rather than copying them.
     */
    method Build() returns (r: Result<TableSchema, BuildError>)
      requires Valid()
      ensures r.Failure? <==> schemaName.None?
      ensures r.Failure? ==> r.error == IllegalState("No schema name set.")
      ensures r.Success? ==>
        && fresh(r.value) && r.value.Valid()
        && r.value.schemaName == schemaName.value && r.value.objectType == objectType
        && r.value.fieldTypes == fieldTypes && r.value.fieldNames == fieldNames
    {
      if schemaName.None? {
        return Failure(IllegalState("No schema name set."));
      }
      var schema := new TableSchema(schemaName.value, objectType, fieldTypes, fieldNames);
      return Success(schema);
    }
  }

  /**
   * A column added after `build` shows through the schema already built: the
   * schema is a view of the builder's lists, not a snapshot.
   */
  method AddFieldAfterBuild(b: Builder, t: FieldType, name: string) returns (s: TableSchema)
    requires b.Valid() && b.schemaName.Some?
    modifies b.fieldTypes, b.fieldNames
    ensures s.Valid()
    ensures s.GetFieldTypes() == old(b.fieldTypes.elems) + [t]
    ensures s.GetFieldNames() == old(b.fieldNames.elems) + [name]
  {
    var built := b.Build();
    s := built.value;
    var _ := b.AddField(t, name);
  }
}
