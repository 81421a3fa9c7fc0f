/**
 `Generator`: compares the tables declared by the models module with the
 tables introspected from the database and emits paired up/down steps.
 Whether `get_field` finds a field's definition in the model source is an
 input (`known`); the generated Python text is replaced by step values.

 Python's dict and set iteration orders are unspecified. A model's field
 names are kept as a duplicate-free sequence (one iteration order of
 `_meta.fields`) and a table map as a sequence of models with distinct
 table names (one iteration order of the dict).
 */
module Generator {
  import opened Wrappers

  datatype StepKind = AddColumn | DropColumn | CreateTable | DropTable

  predicate IsColumnKind(k: StepKind) {
    k == AddColumn || k == DropColumn
  }

  /** `COLUMN_DIRECTION`: the step to emit in `up` and in `down` for a step
      kind; the `down` step undoes the `up` step. */
  function ColumnDirection(kind: StepKind): (pair: (StepKind, StepKind))
    ensures pair.0 == kind && pair.1 != kind
    ensures IsColumnKind(pair.1) == IsColumnKind(kind)
  {
    match kind
    case AddColumn => (AddColumn, DropColumn)
    case DropColumn => (DropColumn, AddColumn)
    case CreateTable => (CreateTable, DropTable)
    case DropTable => (DropTable, CreateTable)
  }

  /** Undoing the undo gives back the original step kind. */
  lemma ColumnDirectionIsInvolution(kind: StepKind)
    ensures ColumnDirection(ColumnDirection(kind).1).1 == kind
  {
  }

  ghost predicate Distinct(s: seq<string>) {
    forall i, j :: 0 <= i < j < |s| ==> s[i] != s[j]
  }

  type FieldNames = s: seq<string> | Distinct(s) witness []

  /** A peewee model class: its class name, `_meta.db_table`, and the keys of
      `_meta.fields`. */
  datatype ModelClass = ModelClass(className: string, table: string, fields: FieldNames)

  /** A value found in a models module. */
  datatype Member = Model(model: ModelClass) | NotAModel

  ghost predicate DistinctTables(t: seq<ModelClass>) {
    forall i, j :: 0 <= i < j < |t| ==> t[i].table != t[j].table
  }

  /** A dict from table name to model class. */
  type Tables = t: seq<ModelClass> | DistinctTables(t) witness []

  /** `tables.get(table)`. */
  function Lookup(tables: Tables, table: string): (r: Option<ModelClass>)
    ensures r.Some? ==> r.value in tables && r.value.table == table
    ensures r.None? <==> forall i :: 0 <= i < |tables| ==> tables[i].table != table
  {
    if |tables| == 0 then None
    else if tables[0].table == table then Some(tables[0])
    else
      var rest: Tables := tables[1..];
      var r := Lookup(rest, table);
      assert forall i :: 0 < i < |tables| ==> tables[i] == rest[i - 1];
      r
  }

  /** In a table map, the model stored under its own table name is the one
      found by looking that name up. */
  lemma LookupFinds(tables: Tables, i: nat)
    requires i < |tables|
    ensures Lookup(tables, tables[i].table) == Some(tables[i])
  {
    var r := Lookup(tables, tables[i].table);
    var j :| 0 <= j < |tables| && tables[j] == r.value;
    assert j == i;
  }

  /** `d[model.table] = model`. */
  function Put(tables: Tables, model: ModelClass): (r: Tables)
    ensures Lookup(r, model.table) == Some(model)
    ensures forall t :: t != model.table ==> Lookup(r, t) == Lookup(tables, t)
  {
    if |tables| == 0 then [model]
    else if tables[0].table == model.table then
      var r: Tables := [model] + tables[1..];
      assert forall t :: Lookup(r, t) == (if t == model.table then Some(model) else Lookup(tables, t)) by {
        assert r[1..] == tables[1..];
      }
      r
    else
      var rest: Tables := tables[1..];
      var put := Put(rest, model);
      assert forall j :: 0 <= j < |rest| ==> rest[j].table != tables[0].table by {
        assert forall j :: 0 <= j < |rest| ==> rest[j] == tables[j + 1];
      }
      PutKeepsApart(rest, model, tables[0].table, put);
      var r: Tables := [tables[0]] + put;
      assert r[1..] == put;
      r
  }

  /** Putting a model under another table into a map without `table` leaves
      the map without `table`. */
  lemma PutKeepsApart(rest: Tables, model: ModelClass, table: string, put: Tables)
    requires table != model.table
    requires forall j :: 0 <= j < |rest| ==> rest[j].table != table
    requires Lookup(put, model.table) == Some(model)
    requires forall t :: t != model.table ==> Lookup(put, t) == Lookup(rest, t)
    ensures forall i :: 0 <= i < |put| ==> put[i].table != table
  {
    forall i | 0 <= i < |put|
      ensures put[i].table != table
    {
      LookupFinds(put, i);
      assert put[i].table != model.table ==> Lookup(rest, put[i].table) == Some(put[i]);
      assert Lookup(rest, table).None?;
    }
  }

  /** Which members `get_tables` keeps: model classes with more than one field. */
  predicate Kept(m: Member) {
    m.Model? && |m.model.fields| > 1
  }

  /** Reference reading of the dict comprehension: the last kept member with
      the given table wins. */
  function LastModelFor(members: seq<Member>, table: string): Option<ModelClass> {
    if members == [] then None
    else
      var last := members[|members| - 1];
      if Kept(last) && last.model.table == table then Some(last.model)
      else LastModelFor(members[..|members| - 1], table)
  }

  /** `get_tables`: the models of a module with more than one field, by table. */
  function GetTables(members: seq<Member>): (r: Tables)
    ensures forall t :: Lookup(r, t) == LastModelFor(members, t)
    ensures forall i :: 0 <= i < |r| ==> |r[i].fields| > 1
  {
    if members == [] then []
    else
      var last := members[|members| - 1];
      var prior := GetTables(members[..|members| - 1]);
      if Kept(last) then
        var r := Put(prior, last.model);
        assert forall i :: 0 <= i < |r| ==> |r[i].fields| > 1 by {
          forall i | 0 <= i < |r|
            ensures |r[i].fields| > 1
          {
            LookupFinds(r, i);
            if r[i].table != last.model.table {
              assert Lookup(prior, r[i].table) == Some(r[i]);
            }
          }
        }
        r
      else prior
  }

  /** One step of a generated migration. */
  datatype Step =
    | ColumnStep(kind: StepKind, table: string, column: string)   // migrator.add_column / drop_column
    | TableStep(kind: StepKind, modelClass: string)              // Model.create_table / drop_table

  /** A field definition `get_field` found, by the step kind it was looked up for. */
  datatype FieldRef = FieldRef(kind: StepKind, table: string, column: string)

  /** The five lists `run` fills in: field definitions, the `up` and `down`
      column steps, and the `up` and `down` table steps. */
  datatype Generated = Generated(
    fields: seq<FieldRef>,
    upColumns: seq<Step>,
    downColumns: seq<Step>,
    upTables: seq<Step>,
    downTables: seq<Step>)

  function Append(a: Generated, b: Generated): Generated {
    Generated(a.fields + b.fields, a.upColumns + b.upColumns, a.downColumns + b.downColumns,
              a.upTables + b.upTables, a.downTables + b.downTables)
  }

  /** The down step that undoes a column step. */
  function Undo(s: Step): Step {
    match s
    case ColumnStep(k, t, c) => ColumnStep(ColumnDirection(k).1, t, c)
    case TableStep(k, m) => TableStep(ColumnDirection(k).1, m)
  }

  /** Every column step has its undo at the same position of `down`, every
      created table its drop, and every found field its step. */
  ghost predicate Paired(g: Generated) {
    && |g.upColumns| == |g.downColumns| == |g.fields|
    && (forall i :: 0 <= i < |g.upColumns| ==>
          g.upColumns[i] == ColumnStep(g.fields[i].kind, g.fields[i].table, g.fields[i].column) &&
          IsColumnKind(g.fields[i].kind) &&
          g.downColumns[i] == Undo(g.upColumns[i]))
    && |g.upTables| == |g.downTables|
    && (forall i :: 0 <= i < |g.upTables| ==>
          g.upTables[i].TableStep? && g.upTables[i].kind == CreateTable &&
          g.downTables[i] == Undo(g.upTables[i]))
  }

  lemma AppendPaired(a: Generated, b: Generated)
    requires Paired(a) && Paired(b)
    ensures Paired(Append(a, b))
  {
    var g := Append(a, b);
    forall i | |a.upColumns| <= i < |g.upColumns|
      ensures g.upColumns[i] == b.upColumns[i - |a.upColumns|] && g.downColumns[i] == b.downColumns[i - |a.upColumns|]
      ensures g.fields[i] == b.fields[i - |a.upColumns|]
    {
    }
    forall i | |a.upTables| <= i < |g.upTables|
      ensures g.upTables[i] == b.upTables[i - |a.upTables|] && g.downTables[i] == b.downTables[i - |a.upTables|]
    {
    }
  }

  /** `generate_definition`: when the field's definition is found, record it
      with its `up` step and the `down` step that undoes it; otherwise emit
      nothing (a warning). */
  function GenerateDefinition(kind: StepKind, table: string, column: string, known: set<FieldRef>): (g: Generated)
    requires IsColumnKind(kind)
    ensures Paired(g)
    ensures g.upTables == [] && g.downTables == []
    ensures forall s :: s in g.upColumns <==> FieldRef(kind, table, column) in known && s == ColumnStep(kind, table, column)
  {
    if FieldRef(kind, table, column) in known then
      var steps := ColumnDirection(kind);
      Generated([FieldRef(kind, table, column)], [ColumnStep(steps.0, table, column)],
                [ColumnStep(steps.1, table, column)], [], [])
    else Generated([], [], [], [], [])
  }

  /** `for column in columns: generate_definition(kind, ...)`. */
  function ColumnSteps(kind: StepKind, table: string, columns: seq<string>, known: set<FieldRef>): (g: Generated)
    requires IsColumnKind(kind)
    ensures Paired(g)
    ensures g.upTables == [] && g.downTables == []
    ensures forall s :: s in g.upColumns <==>
              exists c :: c in columns && FieldRef(kind, table, c) in known && s == ColumnStep(kind, table, c)
  {
    if columns == [] then Generated([], [], [], [], [])
    else
      var head := GenerateDefinition(kind, table, columns[0], known);
      var rest := ColumnSteps(kind, table, columns[1..], known);
      AppendPaired(head, rest);
      assert forall c :: c in columns <==> c == columns[0] || c in columns[1..];
      Append(head, rest)
  }

  /** The names of `these` missing from `those`, in the order of `these`:
      one iteration order of the Python set difference. */
  function Missing(these: seq<string>, those: seq<string>): (r: seq<string>)
    ensures forall c :: c in r <==> c in these && c !in those
  {
    if these == [] then []
    else (if these[0] in those then [] else [these[0]]) + Missing(these[1..], those)
  }

  /** The body of `run`'s loop for one model table: column additions and
      deletions when the database has the table, a create/drop pair when it
      does not. */
  function TableDiff(model: ModelClass, db: Tables, known: set<FieldRef>): (g: Generated)
    ensures Paired(g)
  {
    match Lookup(db, model.table)
    case Some(dbModel) =>
      var added := ColumnSteps(AddColumn, model.table, Missing(model.fields, dbModel.fields), known);
      var deleted := ColumnSteps(DropColumn, model.table, Missing(dbModel.fields, model.fields), known);
      AppendPaired(added, deleted);
      Append(added, deleted)
    case None =>
      Generated([], [], [], [TableStep(CreateTable, model.className)], [TableStep(DropTable, model.className)])
  }

  /** `Generator.run`: the diff of every model table against the database. */
  function Generate(py: Tables, db: Tables, known: set<FieldRef>): (g: Generated)
    ensures Paired(g)
  {
    if |py| == 0 then Generated([], [], [], [], [])
    else
      var rest: Tables := py[1..];
      var head := TableDiff(py[0], db, known);
      var tail := Generate(rest, db, known);
      AppendPaired(head, tail);
      Append(head, tail)
  }

  /** A column present in the model's table and not in the database's. */
  ghost predicate ColumnAdded(py: Tables, db: Tables, t: string, c: string) {
    Lookup(py, t).Some? && Lookup(db, t).Some? &&
    c in Lookup(py, t).value.fields && c !in Lookup(db, t).value.fields
  }

  /** A column present in the database's table and not in the model's. */
  ghost predicate ColumnDeleted(py: Tables, db: Tables, t: string, c: string) {
    Lookup(py, t).Some? && Lookup(db, t).Some? &&
    c in Lookup(db, t).value.fields && c !in Lookup(py, t).value.fields
  }

  lemma TableDiffSteps(model: ModelClass, db: Tables, known: set<FieldRef>, s: Step)
    ensures var g := TableDiff(model, db, known);
            s in g.upColumns <==>
              (Lookup(db, model.table).Some? && s.ColumnStep? && s.table == model.table &&
               FieldRef(s.kind, s.table, s.column) in known &&
               ((s.kind == AddColumn && s.column in model.fields && s.column !in Lookup(db, model.table).value.fields) ||
                (s.kind == DropColumn && s.column in Lookup(db, model.table).value.fields && s.column !in model.fields)))
    ensures var g := TableDiff(model, db, known);
            s in g.upTables <==> Lookup(db, model.table).None? && s == TableStep(CreateTable, model.className)
  {
  }

  /** The diff: the `up` column steps are exactly the added columns (as
      `add_column`) and the deleted columns (as `drop_column`) of tables
      present on both sides, restricted to fields whose definition was found;
      the `up` table steps are exactly `create_table` for model tables the
      database lacks. Tables only in the database yield nothing. */
  lemma GenerateSteps(py: Tables, db: Tables, known: set<FieldRef>, s: Step)
    ensures var g := Generate(py, db, known);
            s in g.upColumns <==>
              s.ColumnStep? && FieldRef(s.kind, s.table, s.column) in known &&
              ((s.kind == AddColumn && ColumnAdded(py, db, s.table, s.column)) ||
               (s.kind == DropColumn && ColumnDeleted(py, db, s.table, s.column)))
    ensures var g := Generate(py, db, known);
            s in g.upTables <==>
              s.TableStep? && s.kind == CreateTable &&
              CreatesTable(py, db, s.modelClass)
  {
    GenerateColumnSteps(py, db, known, s);
    GenerateTableSteps(py, db, known, s);
  }

  /** `Generate` of a non-empty map is the first table's diff followed by
      the rest's. */
  lemma GenerateCons(py: Tables, db: Tables, known: set<FieldRef>)
    requires |py| > 0
    ensures var rest: Tables := py[1..];
            Generate(py, db, known) == Append(TableDiff(py[0], db, known), Generate(rest, db, known))
  {
  }

  /** Looking up in a non-empty map: the first model's table finds it, and
      only it; any other table is looked up in the rest. */
  lemma LookupCons(py: Tables, t: string)
    requires |py| > 0
    ensures var rest: Tables := py[1..];
            Lookup(py, t) == if t == py[0].table then Some(py[0]) else Lookup(rest, t)
    ensures var rest: Tables := py[1..];
            t == py[0].table ==> Lookup(rest, t).None?
  {
  }

  /** Some model class called `name` has a table the database lacks. */
  ghost predicate CreatesTable(py: Tables, db: Tables, name: string) {
    exists i :: 0 <= i < |py| && Lookup(db, py[i].table).None? && py[i].className == name
  }

  lemma CreatesTableCons(py: Tables, db: Tables, name: string)
    requires |py| > 0
    ensures var rest: Tables := py[1..];
            CreatesTable(py, db, name) <==>
              (Lookup(db, py[0].table).None? && py[0].className == name) || CreatesTable(rest, db, name)
  {
    var rest: Tables := py[1..];
    if CreatesTable(rest, db, name) {
      var j :| 0 <= j < |rest| && Lookup(db, rest[j].table).None? && rest[j].className == name;
      assert py[j + 1] == rest[j];
    }
    if CreatesTable(py, db, name) {
      var i :| 0 <= i < |py| && Lookup(db, py[i].table).None? && py[i].className == name;
      if i > 0 {
        assert rest[i - 1] == py[i];
      }
    }
  }

  lemma {:induction false} GenerateColumnSteps(py: Tables, db: Tables, known: set<FieldRef>, s: Step)
    ensures var g := Generate(py, db, known);
            s in g.upColumns <==>
              s.ColumnStep? && FieldRef(s.kind, s.table, s.column) in known &&
              ((s.kind == AddColumn && ColumnAdded(py, db, s.table, s.column)) ||
               (s.kind == DropColumn && ColumnDeleted(py, db, s.table, s.column)))
  {
    if |py| > 0 {
      var rest: Tables := py[1..];
      GenerateCons(py, db, known);
      GenerateColumnSteps(rest, db, known, s);
      TableDiffSteps(py[0], db, known, s);
      if s.ColumnStep? {
        LookupCons(py, s.table);
      }
    }
  }

  lemma {:induction false} GenerateTableSteps(py: Tables, db: Tables, known: set<FieldRef>, s: Step)
    ensures var g := Generate(py, db, known);
            s in g.upTables <==>
              s.TableStep? && s.kind == CreateTable &&
              CreatesTable(py, db, s.modelClass)
  {
    if |py| > 0 {
      var rest: Tables := py[1..];
      GenerateCons(py, db, known);
      GenerateTableSteps(rest, db, known, s);
      TableDiffSteps(py[0], db, known, s);
      if s.TableStep? {
        CreatesTableCons(py, db, s.modelClass);
      }
    }
  }
}
