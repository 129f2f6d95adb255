/** Guarded column steps: migrations that look at the schema before they add or drop a column, and that
    swallow the failures of some of the operations around it. */
module GuardedColumns {
  import opened SchemaModel

  datatype Link = NoLink | Link(name: string, target: TableName)

  /** A column that a revision manages, with the foreign key and the index that belong to it. */
  datatype ColumnStep = ColumnStep(table: TableName, column: string, nullable: bool, link: Link, indexed: bool)

  /** How a script looks before it adds: whether the inspection of the database worked, and whether a
      missing table is skipped. */
  datatype Guard = Guard(inspected: bool, skipsMissing: bool)

  /** How many operations of the `try` block around a column get through before something outside the
      schema (a lost connection, a lock, an aborted transaction) makes one fail. */
  type Faults = (TableName, string) -> nat

  function Creates(step: ColumnStep): seq<Op> {
    (if step.link.Link? then [CreateForeignKey(step.link.name, step.table, step.link.target, step.column)] else [])
    + (if step.indexed then [CreateIndex(Ix(step.table, step.column), step.table, {step.column})] else [])
  }

  function Drops(step: ColumnStep): seq<Op> {
    (if step.indexed then [DropIndex(Ix(step.table, step.column))] else [])
    + (if step.link.Link? then [DropConstraint(step.link.name, step.table)] else [])
  }

  function Cut<T>(ops: seq<T>, limit: nat): seq<T> {
    ops[..if limit < |ops| then limit else |ops|]
  }

  /** A `try` block whose exception is ignored: what came before the failure stays. */
  function Attempt(s: Schema, ops: seq<Op>, limit: nat): Schema {
    Exec(s, Cut(ops, limit)).schema
  }

  predicate Present(s: Schema, t: TableName, c: string) {
    t in s.tables && c in s.tables[t].columns
  }

  function Add(s: Schema, step: ColumnStep, guard: Guard, faults: Faults): Outcome {
    if guard.inspected && Present(s, step.table, step.column) then Ok(s)
    else if guard.skipsMissing && !(guard.inspected && step.table in s.tables) then Ok(s)
    else
      match Apply(s, AddColumn(step.table, step.column, step.nullable))
      case Refused(at) => Refused(at)
      case Ok(at) => Ok(Attempt(at, Creates(step), faults(step.table, step.column)))
  }

  function Remove(s: Schema, step: ColumnStep, inspected: bool, faults: Faults): Outcome {
    if inspected && Present(s, step.table, step.column) then
      Apply(Attempt(s, Drops(step), faults(step.table, step.column)), DropColumn(step.table, step.column))
    else Ok(s)
  }

  function AddAll(s: Schema, steps: seq<ColumnStep>, guard: Guard, faults: Faults): Outcome {
    if |steps| == 0 then Ok(s)
    else
      match AddAll(s, steps[..|steps| - 1], guard, faults)
      case Refused(at) => Refused(at)
      case Ok(at) => Add(at, steps[|steps| - 1], guard, faults)
  }

  function RemoveAll(s: Schema, steps: seq<ColumnStep>, inspected: bool, faults: Faults): Outcome {
    if |steps| == 0 then Ok(s)
    else
      match RemoveAll(s, steps[..|steps| - 1], inspected, faults)
      case Refused(at) => Refused(at)
      case Ok(at) => Remove(at, steps[|steps| - 1], inspected, faults)
  }

  // ---------------------------------------------------------------- what a step may touch

  predicate Over(index: Index, step: ColumnStep) {
    index.table == step.table && step.column in index.columns
  }

  /** `d` differs from `s` only in foreign keys that leave from the step's column and in indexes over
      it, and what is new carries the step's own names. */
  ghost predicate Touches(s: Schema, d: Schema, step: ColumnStep) {
    && d.tables.Keys == s.tables.Keys
    && (forall u :: u in s.tables ==> TableTouches(u, s.tables[u], d.tables[u], step))
    && (forall x :: x in s.indexes && (x !in d.indexes || d.indexes[x] != s.indexes[x]) ==> Over(s.indexes[x], step))
    && (forall x :: x in d.indexes && (x !in s.indexes || d.indexes[x] != s.indexes[x]) ==>
          x == Ix(step.table, step.column) && Over(d.indexes[x], step))
  }

  ghost predicate TableTouches(u: TableName, was: Table, now: Table, step: ColumnStep) {
    && now.columns == was.columns && now.nullable == was.nullable
    && (forall fk :: fk in was.fks && fk !in now.fks ==> u == step.table && fk.column == step.column)
    && (forall fk :: fk in now.fks && fk !in was.fks ==>
          u == step.table && fk.column == step.column && step.link.Link? && fk.name == step.link.name)
  }

  /** The names that the downgrade drops are not in use for anything but the step's column.  Where an
      index name comes first and is free, the constraint name does not matter: its drop is not reached. */
  ghost predicate NamesOwned(s: Schema, step: ColumnStep) {
    step.table in s.tables ==>
    && (step.indexed && Ix(step.table, step.column) in s.indexes ==>
          Over(s.indexes[Ix(step.table, step.column)], step))
    && (step.link.Link? && (step.indexed ==> Ix(step.table, step.column) in s.indexes) ==> LinkOwned(s, step))
  }

  ghost predicate LinkOwned(s: Schema, step: ColumnStep)
    requires step.link.Link?
  {
    step.table in s.tables ==>
      forall fk :: fk in s.tables[step.table].fks && fk.name == step.link.name ==> fk.column == step.column
  }

  lemma TouchesTrans(a: Schema, b: Schema, c: Schema, step: ColumnStep)
    requires Touches(a, b, step) && Touches(b, c, step)
    ensures Touches(a, c, step)
  {
    forall u | u in a.tables ensures TableTouches(u, a.tables[u], c.tables[u], step) {
      assert TableTouches(u, a.tables[u], b.tables[u], step) && TableTouches(u, b.tables[u], c.tables[u], step);
    }
  }

  lemma IndexDropTouches(s: Schema, step: ColumnStep)
    requires Ix(step.table, step.column) in s.indexes ==> Over(s.indexes[Ix(step.table, step.column)], step)
    ensures Touches(s, Apply(s, DropIndex(Ix(step.table, step.column))).schema, step)
    ensures Apply(s, DropIndex(Ix(step.table, step.column))).schema.tables == s.tables
    ensures Apply(s, DropIndex(Ix(step.table, step.column))).Ok? <==> Ix(step.table, step.column) in s.indexes
  {
  }

  lemma ConstraintDropTouches(s: Schema, step: ColumnStep)
    requires step.link.Link? && LinkOwned(s, step)
    ensures Touches(s, Apply(s, DropConstraint(step.link.name, step.table)).schema, step)
  {
  }

  lemma ExecTwo(s: Schema, a: Op, b: Op)
    ensures Exec(s, [a, b]) == match Apply(s, a) case Ok(at) => Apply(at, b) case Refused(at) => Refused(at)
  {
    hide Apply;
    ExecOne(s, a);
    assert [a, b][..1] == [a];
  }

  lemma ExecNothing(s: Schema)
    ensures Exec(s, []) == Ok(s)
  {
  }

  lemma TouchesSelf(s: Schema, step: ColumnStep)
    ensures Touches(s, s, step)
  {
  }

  /** Where the names are owned, the caught drops only touch the step's column, however far they get. */
  lemma DropsTouch(s: Schema, step: ColumnStep, limit: nat)
    requires NamesOwned(s, step) && step.table in s.tables
    ensures Touches(s, Attempt(s, Drops(step), limit), step)
  {
    hide Apply, Touches, LinkOwned, Exec;
    var x := Ix(step.table, step.column);
    var ops := Cut(Drops(step), limit);
    TouchesSelf(s, step);
    if |ops| == 0 {
      assert ops == [] && Exec(s, ops) == Ok(s) by { ExecNothing(s); }
    } else if |ops| == 1 {
      assert ops == [ops[0]];
      ExecOne(s, ops[0]);
      if step.indexed {
        IndexDropTouches(s, step);
      } else {
        ConstraintDropTouches(s, step);
      }
    } else {
      assert ops == [DropIndex(x), DropConstraint(step.link.name, step.table)];
      ExecTwo(s, ops[0], ops[1]);
      IndexDropTouches(s, step);
      if x in s.indexes {
        var at := Apply(s, DropIndex(x)).schema;
        SameLinks(s, at, step);
        ConstraintDropTouches(at, step);
        TouchesTrans(s, at, Apply(at, ops[1]).schema, step);
      }
    }
  }

  lemma SameLinks(s: Schema, d: Schema, step: ColumnStep)
    requires step.link.Link? && s.tables == d.tables && LinkOwned(s, step)
    ensures LinkOwned(d, step)
  {
  }

  /** Two steps are apart when neither their columns nor their constraint names coincide. */
  predicate Apart(a: ColumnStep, b: ColumnStep) {
    && (a.table, a.column) != (b.table, b.column)
    && (a.link.Link? && b.link.Link? && a.table == b.table ==> a.link.name != b.link.name)
  }

  ghost predicate StepsOk(steps: seq<ColumnStep>) {
    && (forall i :: 0 <= i < |steps| ==> steps[i].column != KEY)
    && (forall i, j :: 0 <= i < j < |steps| ==> Apart(steps[i], steps[j]))
  }

  // ---------------------------------------------------------------- the columns of a schema

  type Column = (TableName, string)

  function Managed(steps: seq<ColumnStep>): set<Column> {
    set i | 0 <= i < |steps| :: (steps[i].table, steps[i].column)
  }

  function Of(managed: set<Column>, t: TableName): (r: set<string>)
    ensures forall c :: c in r <==> (t, c) in managed
  {
    set m | m in managed && m.0 == t :: m.1
  }

  function Columns(s: Schema): map<TableName, set<string>> {
    map t | t in s.tables :: s.tables[t].columns
  }

  function ColumnsPlus(s: Schema, managed: set<Column>): map<TableName, set<string>> {
    map t | t in s.tables :: s.tables[t].columns + Of(managed, t)
  }

  function ColumnsMinus(s: Schema, managed: set<Column>): map<TableName, set<string>> {
    map t | t in s.tables :: s.tables[t].columns - Of(managed, t)
  }

  predicate Attaches(op: Op) {
    op.CreateIndex? || op.DropIndex? || op.CreateForeignKey? || op.DropConstraint? || op.AlterNullable?
  }

  lemma AttachingKeepsColumns(s: Schema, op: Op)
    requires Attaches(op)
    ensures Columns(Apply(s, op).schema) == Columns(s)
  {
  }

  lemma {:induction false} AttemptKeepsColumns(s: Schema, ops: seq<Op>)
    requires forall i :: 0 <= i < |ops| ==> Attaches(ops[i])
    ensures Columns(Exec(s, ops).schema) == Columns(s)
  {
    if |ops| > 0 {
      hide Apply, Columns;
      var init := ops[..|ops| - 1];
      AttemptKeepsColumns(s, init);
      if Exec(s, init).Ok? {
        AttachingKeepsColumns(Exec(s, init).schema, ops[|ops| - 1]);
      }
    }
  }

  lemma OfOne(t: TableName, c: string)
    ensures Of({(t, c)}, t) == {c}
    ensures forall u :: u != t ==> Of({(t, c)}, u) == {}
  {
    forall u | u != t ensures Of({(t, c)}, u) == {} {
      assert forall d :: (u, d) !in {(t, c)};
    }
  }

  lemma ColumnAdded(s: Schema, t: TableName, c: string, nullable: bool)
    ensures Apply(s, AddColumn(t, c, nullable)).Ok? <==> t in s.tables && c !in s.tables[t].columns
    ensures Apply(s, AddColumn(t, c, nullable)).Ok? ==>
              Columns(Apply(s, AddColumn(t, c, nullable)).schema) == ColumnsPlus(s, {(t, c)})
  {
    OfOne(t, c);
    if Apply(s, AddColumn(t, c, nullable)).Ok? {
      var d := Apply(s, AddColumn(t, c, nullable)).schema;
      forall u | u in s.tables ensures d.tables[u].columns == s.tables[u].columns + Of({(t, c)}, u) {}
    }
  }

  lemma ColumnDropped(s: Schema, t: TableName, c: string)
    requires c != KEY
    ensures Apply(s, DropColumn(t, c)).Ok? <==> Present(s, t, c)
    ensures Apply(s, DropColumn(t, c)).Ok? ==>
              Columns(Apply(s, DropColumn(t, c)).schema) == ColumnsMinus(s, {(t, c)})
  {
    OfOne(t, c);
    if Apply(s, DropColumn(t, c)).Ok? {
      var d := Apply(s, DropColumn(t, c)).schema;
      forall u | u in s.tables ensures d.tables[u].columns == s.tables[u].columns - Of({(t, c)}, u) {}
    }
  }

  /** A step gets through when a missing table is skipped; otherwise its table must be there, and, with
      no inspection to warn it, without the column. */
  predicate Runs(s: Schema, step: ColumnStep, guard: Guard) {
    || guard.skipsMissing
    || (step.table in s.tables && (guard.inspected || !Present(s, step.table, step.column)))
  }

  lemma AddExactly(s: Schema, step: ColumnStep, guard: Guard, faults: Faults)
    ensures Add(s, step, guard, faults).Ok? <==> Runs(s, step, guard)
    ensures Add(s, step, guard, faults).Ok? && (guard.inspected || !guard.skipsMissing) ==>
              Columns(Add(s, step, guard, faults).schema) == ColumnsPlus(s, {(step.table, step.column)})
  {
    hide Exec, Apply, Columns;
    var t, c := step.table, step.column;
    ColumnAdded(s, t, c, step.nullable);
    var added := Apply(s, AddColumn(t, c, step.nullable));
    var limit := faults(t, c);
    AttemptKeepsColumns(added.schema, Cut(Creates(step), limit));
    if Present(s, t, c) || t !in s.tables {
      NothingAdded(s, {(t, c)});
    }
  }

  lemma NothingAdded(s: Schema, managed: set<Column>)
    requires forall m :: m in managed && m.0 in s.tables ==> m.1 in s.tables[m.0].columns
    ensures ColumnsPlus(s, managed) == Columns(s)
  {
    forall t | t in s.tables ensures s.tables[t].columns + Of(managed, t) == s.tables[t].columns {
      forall c | c in Of(managed, t) ensures c in s.tables[t].columns {
        assert (t, c) in managed;
      }
    }
  }

  lemma NothingRemoved(s: Schema, managed: set<Column>)
    ensures ColumnsMinus(s, managed) == Columns(s)
            <==> forall m :: m in managed ==> !Present(s, m.0, m.1)
  {
    forall m | m in managed && Present(s, m.0, m.1) ensures ColumnsMinus(s, managed) != Columns(s) {
      assert m.1 in Of(managed, m.0);
      assert m.1 in Columns(s)[m.0];
      assert m.1 !in ColumnsMinus(s, managed)[m.0];
    }
    if forall m :: m in managed ==> !Present(s, m.0, m.1) {
      forall t | t in s.tables ensures s.tables[t].columns - Of(managed, t) == s.tables[t].columns {
        forall c | c in s.tables[t].columns ensures c !in Of(managed, t) {
          assert Present(s, t, c);
        }
      }
    }
  }

  lemma RemoveExactly(s: Schema, step: ColumnStep, faults: Faults)
    requires step.column != KEY
    ensures Remove(s, step, true, faults).Ok?
    ensures Columns(Remove(s, step, true, faults).schema) == ColumnsMinus(s, {(step.table, step.column)})
  {
    hide Exec, Apply;
    var t, c := step.table, step.column;
    var limit := faults(t, c);
    AttemptKeepsColumns(s, Cut(Drops(step), limit));
    var at := Attempt(s, Drops(step), limit);
    SameColumns(s, at, {(t, c)});
    ColumnDropped(at, t, c);
    NothingRemoved(s, {(t, c)});
  }

  lemma SameColumns(s: Schema, d: Schema, managed: set<Column>)
    requires Columns(s) == Columns(d)
    ensures s.tables.Keys == d.tables.Keys
    ensures forall t, c :: Present(s, t, c) <==> Present(d, t, c)
    ensures ColumnsPlus(s, managed) == ColumnsPlus(d, managed)
    ensures ColumnsMinus(s, managed) == ColumnsMinus(d, managed)
  {
    assert Columns(s).Keys == s.tables.Keys && Columns(d).Keys == d.tables.Keys;
    forall t | t in s.tables ensures s.tables[t].columns == d.tables[t].columns {
      assert Columns(s)[t] == Columns(d)[t];
    }
  }

  lemma ManagedSnoc(steps: seq<ColumnStep>)
    requires |steps| > 0
    ensures var last := steps[|steps| - 1];
            Managed(steps) == Managed(steps[..|steps| - 1]) + {(last.table, last.column)}
  {
    var init, last := steps[..|steps| - 1], steps[|steps| - 1];
    forall m | m in Managed(steps) ensures m in Managed(init) + {(last.table, last.column)} {
      var i :| 0 <= i < |steps| && m == (steps[i].table, steps[i].column);
      if i < |init| {
        assert init[i] == steps[i];
      }
    }
    forall m | m in Managed(init) ensures m in Managed(steps) {
      var i :| 0 <= i < |init| && m == (init[i].table, init[i].column);
      assert init[i] == steps[i];
    }
    assert (steps[|steps| - 1].table, steps[|steps| - 1].column) in Managed(steps);
  }

  lemma StepsOkSnoc(steps: seq<ColumnStep>)
    requires |steps| > 0 && StepsOk(steps)
    ensures StepsOk(steps[..|steps| - 1])
    ensures var last := steps[|steps| - 1]; (last.table, last.column) !in Managed(steps[..|steps| - 1])
  {
    var init, last := steps[..|steps| - 1], steps[|steps| - 1];
    forall i | 0 <= i < |init| ensures Apart(init[i], last) {
      assert Apart(steps[i], steps[|steps| - 1]);
    }
  }

  lemma PlusTwice(s: Schema, d: Schema, first: set<Column>, second: set<Column>)
    requires Columns(d) == ColumnsPlus(s, first)
    ensures ColumnsPlus(d, second) == ColumnsPlus(s, first + second)
  {
    assert Columns(d).Keys == d.tables.Keys && ColumnsPlus(s, first).Keys == s.tables.Keys;
    forall t | t in s.tables
      ensures d.tables[t].columns + Of(second, t) == s.tables[t].columns + Of(first + second, t)
    {
      assert Columns(d)[t] == ColumnsPlus(s, first)[t];
    }
  }

  lemma MinusTwice(s: Schema, d: Schema, first: set<Column>, second: set<Column>)
    requires Columns(d) == ColumnsMinus(s, first)
    ensures ColumnsMinus(d, second) == ColumnsMinus(s, first + second)
  {
    assert Columns(d).Keys == d.tables.Keys && ColumnsMinus(s, first).Keys == s.tables.Keys;
    forall t | t in s.tables
      ensures d.tables[t].columns - Of(second, t) == s.tables[t].columns - Of(first + second, t)
    {
      assert Columns(d)[t] == ColumnsMinus(s, first)[t];
    }
  }

  lemma PlusPresent(s: Schema, d: Schema, managed: set<Column>, t: TableName, c: string)
    requires Columns(d) == ColumnsPlus(s, managed)
    ensures Present(d, t, c) <==> t in s.tables && (Present(s, t, c) || (t, c) in managed)
    ensures t in d.tables <==> t in s.tables
  {
    assert Columns(d).Keys == d.tables.Keys && ColumnsPlus(s, managed).Keys == s.tables.Keys;
    if t in s.tables {
      assert Columns(d)[t] == ColumnsPlus(s, managed)[t];
    }
  }

  /** Exactly when the `add` steps get through, and the columns they leave: whatever fails inside their
      `try` blocks, every managed column is there in the end. */
  lemma {:induction false} AddAllExactly(s: Schema, steps: seq<ColumnStep>, guard: Guard, faults: Faults)
    requires StepsOk(steps) && (guard.inspected || !guard.skipsMissing)
    ensures AddAll(s, steps, guard, faults).Ok? <==> forall i :: 0 <= i < |steps| ==> Runs(s, steps[i], guard)
    ensures AddAll(s, steps, guard, faults).Ok? ==>
              Columns(AddAll(s, steps, guard, faults).schema) == ColumnsPlus(s, Managed(steps))
  {
    if |steps| > 0 {
      hide Add, Columns, Managed, StepsOk;
      var init, last := steps[..|steps| - 1], steps[|steps| - 1];
      StepsOkSnoc(steps);
      AddAllExactly(s, init, guard, faults);
      ManagedSnoc(steps);
      if AddAll(s, init, guard, faults).Ok? {
        var at := AddAll(s, init, guard, faults).schema;
        AddExactly(at, last, guard, faults);
        PlusPresent(s, at, Managed(init), last.table, last.column);
        PlusTwice(s, at, Managed(init), {(last.table, last.column)});
      }
    } else {
      NothingAdded(s, Managed(steps));
    }
  }

  /** The `drop` steps always get through, and take the managed columns away. */
  lemma {:induction false} RemoveAllExactly(s: Schema, steps: seq<ColumnStep>, faults: Faults)
    requires StepsOk(steps)
    ensures RemoveAll(s, steps, true, faults).Ok?
    ensures Columns(RemoveAll(s, steps, true, faults).schema) == ColumnsMinus(s, Managed(steps))
  {
    if |steps| > 0 {
      hide Remove, Columns, Managed;
      var init, last := steps[..|steps| - 1], steps[|steps| - 1];
      RemoveAllExactly(s, init, faults);
      ManagedSnoc(steps);
      var at := RemoveAll(s, init, true, faults).schema;
      RemoveExactly(at, last, faults);
      MinusTwice(s, at, Managed(init), {(last.table, last.column)});
    } else {
      NothingRemoved(s, Managed(steps));
    }
  }

  /** With every managed column in place, or its table missing and skipped, nothing is done. */
  lemma {:induction false} AddAllSettled(s: Schema, steps: seq<ColumnStep>, guard: Guard, faults: Faults)
    requires guard.inspected || guard.skipsMissing
    requires forall i :: 0 <= i < |steps| ==>
               || Present(s, steps[i].table, steps[i].column)
               || (guard.skipsMissing && steps[i].table !in s.tables)
    ensures AddAll(s, steps, guard, faults) == Ok(s)
  {
    if |steps| > 0 {
      AddAllSettled(s, steps[..|steps| - 1], guard, faults);
    }
  }

  lemma PlusKeys(s: Schema, d: Schema, managed: set<Column>)
    requires Columns(d) == ColumnsPlus(s, managed)
    ensures d.tables.Keys == s.tables.Keys
  {
    assert Columns(d).Keys == d.tables.Keys && ColumnsPlus(s, managed).Keys == s.tables.Keys;
  }

  lemma MinusPresent(s: Schema, d: Schema, managed: set<Column>, t: TableName, c: string)
    requires Columns(d) == ColumnsMinus(s, managed)
    ensures Present(d, t, c) <==> Present(s, t, c) && (t, c) !in managed
    ensures t in d.tables <==> t in s.tables
  {
    assert Columns(d).Keys == d.tables.Keys && ColumnsMinus(s, managed).Keys == s.tables.Keys;
    if t in s.tables {
      assert Columns(d)[t] == ColumnsMinus(s, managed)[t];
    }
  }

  lemma MinusKeys(s: Schema, d: Schema, managed: set<Column>)
    requires Columns(d) == ColumnsMinus(s, managed)
    ensures d.tables.Keys == s.tables.Keys
  {
    assert Columns(d).Keys == d.tables.Keys && ColumnsMinus(s, managed).Keys == s.tables.Keys;
  }
}
