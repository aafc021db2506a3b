/**
 * The change generator for changed tables: it claims `Table` and its
 * subtypes, declares no ordering constraints, and turns a "remarks"
 * difference into a single set-table-remarks change.
 */
module ChangedTableChangeGenerator {
  import opened Wrappers

  /** A Java class: its fully qualified name and its superclass (None above the root). */
  datatype ClassRef = ClassRef(name: string, superclass: Option<ClassRef>)

  /** The fully qualified name of the table class. */
  const TableClassName: string := "liquibase.structure.core.Table"

  /** `Table.class.isAssignableFrom(t)`: the table class is `t` or one of its superclasses. */
  predicate IsTableType(t: ClassRef)
    decreases t
  {
    t.name == TableClassName || (t.superclass.Some? && IsTableType(t.superclass.value))
  }

  /** The names of `t` and of its superclasses, nearest first. */
  function AncestorNames(t: ClassRef): (names: seq<string>)
    ensures |names| > 0 && names[0] == t.name
    decreases t
  {
    match t.superclass
    case None => [t.name]
    case Some(s) => [t.name] + AncestorNames(s)
  }

  /** The priority levels this generator can answer with. */
  datatype Priority = PriorityNone | PriorityDefault

  /**
   * `getPriority`: DEFAULT for the table class and its subtypes, NONE for
   * every other object type. The database plays no part.
   */
  function GetPriority<Database>(objectType: ClassRef, database: Database): (p: Priority)
    ensures p == PriorityDefault <==> TableClassName in AncestorNames(objectType)
    ensures p == PriorityNone <==> TableClassName !in AncestorNames(objectType)
  {
    TableTypeIffAncestor(objectType);
    if IsTableType(objectType) then PriorityDefault else PriorityNone
  }

  /** `IsTableType` holds exactly when some class in the superclass chain is the table class. */
  lemma {:induction false} TableTypeIffAncestor(t: ClassRef)
    ensures IsTableType(t) <==> TableClassName in AncestorNames(t)
    decreases t
  {
    match t.superclass
    case None =>
    case Some(s) =>
      TableTypeIffAncestor(s);
      assert AncestorNames(t) == [t.name] + AncestorNames(s);
  }

  /** `runAfterTypes`: null, no ordering constraint. */
  function RunAfterTypes(): (types: Option<seq<ClassRef>>)
    ensures types.None?
  {
    None
  }

  /** `runBeforeTypes`: null, no ordering constraint. */
  function RunBeforeTypes(): (types: Option<seq<ClassRef>>)
    ensures types.None?
  {
    None
  }

  /** A schema: its name and the name of its catalog, either possibly null. */
  datatype Schema = Schema(name: Option<string>, catalogName: Option<string>)

  /** The compared (after-state) table the generator reads. */
  datatype Table = Table(name: string, schema: Option<Schema>, remarks: Option<string>)

  /** One detected delta of one field; the values are opaque here. */
  datatype Difference<Value> = Difference(field: string, referenceValue: Value, comparedValue: Value)

  /** The differences of one compared object, by field name. */
  type ObjectDifferences<Value> = map<string, Difference<Value>>

  /** The output-control flags that decide whether qualifying names are written. */
  datatype DiffOutputControl = DiffOutputControl(includeCatalog: bool, includeSchema: bool)

  /** `SetTableRemarksChange`: None is a property left unset. */
  datatype SetTableRemarksChange = SetTableRemarksChange(
    catalogName: Option<string>,
    schemaName: Option<string>,
    tableName: Option<string>,
    remarks: Option<string>)

  /** What `fixChanged` returns: null, an array of changes, or a dereference of a null schema. */
  datatype FixResult = NoChanges | Changes(changes: seq<SetTableRemarksChange>) | NullSchema

  /** The field this generator reacts to. */
  const RemarksField: string := "remarks"

  /**
   * `fixChanged`. The databases and the chain are type parameters: the
   * generator can neither consult nor change them, nor the differences or
   * the table, which are values.
   */
  function FixChanged<Value, Database, Chain>(
    table: Table, differences: ObjectDifferences<Value>, control: DiffOutputControl,
    referenceDatabase: Database, comparisonDatabase: Database, chain: Chain): (r: FixResult)
    // No remarks difference: null.
    ensures r.NoChanges? <==> RemarksField !in differences
    // The only failure: the catalog is asked for and the table has no schema.
    ensures r.NullSchema? <==> RemarksField in differences && control.includeCatalog && table.schema.None?
    // Otherwise exactly one change, carrying the table's own remarks.
    ensures r.Changes? ==> |r.changes| == 1
    ensures r.Changes? ==> r.changes[0].remarks == table.remarks
    // Only the catalog name is ever set, and only when asked for.
    ensures r.Changes? ==> r.changes[0].schemaName.None? && r.changes[0].tableName.None?
    ensures r.Changes? && !control.includeCatalog ==> r.changes[0].catalogName.None?
    ensures r.Changes? && control.includeCatalog ==> r.changes[0].catalogName == table.schema.value.catalogName
  {
    if RemarksField !in differences then NoChanges
    else if control.includeCatalog && table.schema.None? then NullSchema
    else
      var catalogName := if control.includeCatalog then table.schema.value.catalogName else None;
      Changes([SetTableRemarksChange(catalogName, None, None, table.remarks)])
  }
}

module ChangedTableChangeGeneratorLemmas {
  import opened Wrappers
  import opened ChangedTableChangeGenerator

  /** Differences other than "remarks", and the values inside the remarks difference, are ignored. */
  lemma OnlyRemarksPresenceMatters<Value, Database, Chain>(
    table: Table, d1: ObjectDifferences<Value>, d2: ObjectDifferences<Value>, control: DiffOutputControl,
    referenceDatabase: Database, comparisonDatabase: Database, chain: Chain)
    requires RemarksField in d1 <==> RemarksField in d2
    ensures FixChanged(table, d1, control, referenceDatabase, comparisonDatabase, chain)
         == FixChanged(table, d2, control, referenceDatabase, comparisonDatabase, chain)
  {
  }

  /** The `includeSchema` flag has no effect: the schema-name code is commented out. */
  lemma IncludeSchemaIgnored<Value, Database, Chain>(
    table: Table, differences: ObjectDifferences<Value>, control: DiffOutputControl, b: bool,
    referenceDatabase: Database, comparisonDatabase: Database, chain: Chain)
    ensures FixChanged(table, differences, control, referenceDatabase, comparisonDatabase, chain)
         == FixChanged(table, differences, control.(includeSchema := b), referenceDatabase, comparisonDatabase, chain)
  {
  }

  /** A direct subclass of the table class is claimed, and a class outside the chain is not. */
  lemma PriorityExamples<Database>(db: Database)
    ensures GetPriority(ClassRef("x.MyTable", Some(ClassRef(TableClassName, None))), db) == PriorityDefault
    ensures GetPriority(ClassRef("liquibase.structure.core.View", None), db) == PriorityNone
  {
  }
}
