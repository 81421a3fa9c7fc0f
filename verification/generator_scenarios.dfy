/**
 Concrete diffs: a model that gained a column, and a model whose table the
 database lacks.
 */
module GeneratorScenarios {
  import opened Wrappers
  import opened Generator

  /** The names of `[x, y, z]` missing from `[x, y]`, and the other way round. */
  lemma MissingOneColumn(x: string, y: string, z: string)
    requires z != x && z != y
    ensures Missing([x, y, z], [x, y]) == [z]
    ensures Missing([x, y], [x, y, z]) == []
  {
    assert [x, y, z][1..] == [y, z] && [y, z][1..] == [z] && [z][1..] == [];
    assert [x, y][1..] == [y] && [y][1..] == [];
    assert Missing([z], [x, y]) == [z] + Missing([], [x, y]);
    assert Missing([y, z], [x, y]) == [] + Missing([z], [x, y]);
    assert Missing([x, y, z], [x, y]) == [] + Missing([y, z], [x, y]);
    assert Missing([y], [x, y, z]) == [] + Missing([], [x, y, z]);
    assert Missing([x, y], [x, y, z]) == [] + Missing([y], [x, y, z]);
  }

  /** One model table, present in the database with one column fewer:
      the diff holds exactly that column's `add_column`, undone by its
      `drop_column`, when its definition is found, and nothing otherwise. */
  lemma OneColumnAdded(model: ModelClass, dbModel: ModelClass, known: set<FieldRef>, c: string)
    requires model.table == dbModel.table
    requires Missing(model.fields, dbModel.fields) == [c] && Missing(dbModel.fields, model.fields) == []
    ensures var g := Generate([model], [dbModel], known);
            var t := model.table;
            g == if FieldRef(AddColumn, t, c) in known
                 then Generated([FieldRef(AddColumn, t, c)], [ColumnStep(AddColumn, t, c)], [ColumnStep(DropColumn, t, c)], [], [])
                 else Generated([], [], [], [], [])
  {
    var py: Tables := [model];
    var db: Tables := [dbModel];
    var t := model.table;
    var rest: Tables := py[1..];
    assert rest == [];
    assert [c][1..] == [];
    assert Lookup(db, t) == Some(dbModel);
    var added := ColumnSteps(AddColumn, t, [c], known);
    assert added == Append(GenerateDefinition(AddColumn, t, c, known), ColumnSteps(AddColumn, t, [], known));
    assert TableDiff(model, db, known) == Append(added, ColumnSteps(DropColumn, t, [], known));
    assert Generate(py, db, known) == Append(TableDiff(model, db, known), Generate(rest, db, known));
  }

  /** `users` gained `email`: the model declares `id`, `name`, `email` and
      the database has `id`, `name`. */
  lemma UsersGainedEmail(model: ModelClass, dbModel: ModelClass)
    requires model == ModelClass("User", "users", ["id", "name", "email"])
    requires dbModel == ModelClass("Users", "users", ["id", "name"])
    ensures Generate([model], [dbModel], {FieldRef(AddColumn, "users", "email")}) ==
            Generated([FieldRef(AddColumn, "users", "email")],
                      [ColumnStep(AddColumn, "users", "email")],
                      [ColumnStep(DropColumn, "users", "email")], [], [])
    ensures Generate([model], [dbModel], {}) == Generated([], [], [], [], [])
  {
    MissingOneColumn("id", "name", "email");
    OneColumnAdded(model, dbModel, {FieldRef(AddColumn, "users", "email")}, "email");
    OneColumnAdded(model, dbModel, {}, "email");
  }

  /** A model table the database lacks gives one `create_table` in `up`
      and its `drop_table` in `down`, whatever its fields. */
  lemma NewTable(model: ModelClass, known: set<FieldRef>)
    ensures Generate([model], [], known) ==
            Generated([], [], [], [TableStep(CreateTable, model.className)], [TableStep(DropTable, model.className)])
  {
    var py: Tables := [model];
    assert py[1..] == [];
  }
}
