/** What guarded column steps leave behind in the whole schema: foreign keys, indexes and nullability. */
module ColumnTraces {
  import opened SchemaModel
  import opened GuardedColumns
  import opened SchemaGrowth

  /** The schema without the managed columns and all that hangs on them. */
  function Strip(s: Schema, managed: set<Column>): Schema {
    Schema(map t | t in s.tables :: StripTable(s.tables[t], Of(managed, t)),
           map x | x in s.indexes && !Doomed(s, s.indexes[x], managed) :: s.indexes[x])
  }

  function StripTable(table: Table, columns: set<string>): Table {
    Table(table.columns - columns, table.nullable - columns, set fk | fk in table.fks && fk.column !in columns)
  }

  predicate Doomed(s: Schema, index: Index, managed: set<Column>) {
    index.table in s.tables && exists c :: c in index.columns && (index.table, c) in managed
  }

  /** Nothing in the schema speaks of the column. */
  ghost predicate NoTrace(s: Schema, t: TableName, c: string) {
    t in s.tables ==>
      && c !in s.tables[t].columns && c !in s.tables[t].nullable
      && (forall fk :: fk in s.tables[t].fks ==> fk.column != c)
      && (forall x :: x in s.indexes ==> !(s.indexes[x].table == t && c in s.indexes[x].columns))
  }

  /** Stripping changes nothing exactly when there is no trace of a managed column. */
  lemma StripIsIdentity(s: Schema, managed: set<Column>)
    ensures Strip(s, managed) == s <==> forall m :: m in managed ==> NoTrace(s, m.0, m.1)
  {
    if Strip(s, managed) == s {
      forall m | m in managed ensures NoTrace(s, m.0, m.1) {
        if m.0 in s.tables {
          StripRemoves(s, managed, m.0, m.1);
        }
      }
    }
    if forall m :: m in managed ==> NoTrace(s, m.0, m.1) {
      forall t | t in s.tables ensures StripTable(s.tables[t], Of(managed, t)) == s.tables[t] {
        forall c | c in Of(managed, t)
          ensures c !in s.tables[t].columns && c !in s.tables[t].nullable
          ensures forall fk :: fk in s.tables[t].fks ==> fk.column != c
        {
          assert (t, c) in managed && NoTrace(s, (t, c).0, (t, c).1);
        }
      }
      forall x | x in s.indexes ensures !Doomed(s, s.indexes[x], managed) {
        forall m | m in managed && s.indexes[x].table in s.tables
          ensures !(m.0 == s.indexes[x].table && m.1 in s.indexes[x].columns)
        {
          assert NoTrace(s, m.0, m.1);
        }
      }
    }
  }

  lemma StripRemoves(s: Schema, managed: set<Column>, t: TableName, c: string)
    requires (t, c) in managed
    ensures NoTrace(Strip(s, managed), t, c)
  {
  }

  lemma TableGainsStrip(t: TableName, was: Table, now: Table, step: ColumnStep, columns: set<string>)
    requires TableGains(t, was, now, step) && (t == step.table ==> step.column in columns)
    ensures StripTable(was, columns) == StripTable(now, columns)
  {
    var a, b := StripTable(was, columns), StripTable(now, columns);
    forall c ensures c in a.columns <==> c in b.columns {
      assert c in now.columns - {step.column} <==> c in was.columns - {step.column};
    }
    forall c ensures c in a.nullable <==> c in b.nullable {
      assert c in now.nullable - {step.column} <==> c in was.nullable - {step.column};
    }
    assert a.fks == b.fks;
  }

  /** What an addition brings in is invisible once its column is stripped. */
  lemma GainsStrip(s: Schema, d: Schema, step: ColumnStep, managed: set<Column>)
    requires Gains(s, d, step) && (step.table, step.column) in managed
    ensures Strip(s, managed) == Strip(d, managed)
  {
    assert Strip(s, managed).tables.Keys == s.tables.Keys && Strip(d, managed).tables.Keys == d.tables.Keys;
    forall t | t in s.tables
      ensures StripTable(s.tables[t], Of(managed, t)) == StripTable(d.tables[t], Of(managed, t))
    {
      assert TableGains(t, s.tables[t], d.tables[t], step);
      TableGainsStrip(t, s.tables[t], d.tables[t], step, Of(managed, t));
    }
    forall x | x in d.indexes && x !in s.indexes ensures Doomed(d, d.indexes[x], managed) {
      assert step.column in d.indexes[x].columns;
    }
    assert Strip(s, managed).indexes == Strip(d, managed).indexes;
  }

  lemma ColumnDroppedStrip(s: Schema, t: TableName, c: string, managed: set<Column>)
    requires (t, c) in managed && c != KEY
    ensures Strip(Apply(s, DropColumn(t, c)).schema, managed) == Strip(s, managed)
  {
    var d := Apply(s, DropColumn(t, c)).schema;
    forall u | u in s.tables
      ensures StripTable(s.tables[u], Of(managed, u)) == StripTable(d.tables[u], Of(managed, u))
    {
    }
    assert Strip(s, managed).indexes == Strip(d, managed).indexes;
  }

  // ---------------------------------------------------------------- one step

  /** Where the names are the step's own, the caught drops remove nothing that the column does not take
      with it anyway. */
  lemma RemoveIsDrop(s: Schema, step: ColumnStep, faults: Faults)
    requires NamesOwned(s, step) && Present(s, step.table, step.column) && step.column != KEY
    ensures Remove(s, step, true, faults) == Apply(s, DropColumn(step.table, step.column))
    ensures Remove(s, step, true, faults).Ok?
  {
    hide Exec, Drops, NamesOwned;
    var limit := faults(step.table, step.column);
    DropsTouch(s, step, limit);
    TouchesDrop(s, Attempt(s, Drops(step), limit), step);
  }

  lemma TouchesDrop(s: Schema, d: Schema, step: ColumnStep)
    requires Touches(s, d, step) && Present(s, step.table, step.column) && step.column != KEY
    ensures Apply(d, DropColumn(step.table, step.column)) == Apply(s, DropColumn(step.table, step.column))
  {
    var op := DropColumn(step.table, step.column);
    var a, b := Apply(s, op).schema, Apply(d, op).schema;
    assert a.tables.Keys == b.tables.Keys;
    forall u | u in s.tables ensures u in a.tables && u in b.tables && a.tables[u] == b.tables[u] {
      assert TableTouches(u, s.tables[u], d.tables[u], step);
      assert u == step.table ==> a.tables[u].fks == b.tables[u].fks;
    }
    assert a.indexes == b.indexes;
  }

  lemma DropColumnTraces(s: Schema, op: Op)
    requires op.DropColumn?
    ensures forall t, c :: NoTrace(s, t, c) ==> NoTrace(Apply(s, op).schema, t, c)
    ensures Apply(s, op).Ok? ==> NoTrace(Apply(s, op).schema, op.table, op.column)
  {
  }

  // ---------------------------------------------------------------- whole scripts

  lemma {:induction false} AddAllStrip(s: Schema, steps: seq<ColumnStep>, guard: Guard, faults: Faults,
                                       managed: set<Column>)
    requires Managed(steps) <= managed
    ensures Strip(AddAll(s, steps, guard, faults).schema, managed) == Strip(s, managed)
  {
    if |steps| > 0 {
      hide Strip, Add, Managed, Gains;
      var init, last := steps[..|steps| - 1], steps[|steps| - 1];
      ManagedSnoc(steps);
      AddAllStrip(s, init, guard, faults, managed);
      var at := AddAll(s, init, guard, faults).schema;
      assert (last.table, last.column) in managed;
      AddGains(at, last, guard, faults);
      GainsStrip(at, Add(at, last, guard, faults).schema, last, managed);
    }
  }

  lemma SameManaged(up: seq<ColumnStep>, down: seq<ColumnStep>)
    requires forall step :: step in up <==> step in down
    ensures Managed(up) == Managed(down)
  {
    forall m ensures m in Managed(up) <==> m in Managed(down) {
      if m in Managed(up) {
        var i :| 0 <= i < |up| && m == (up[i].table, up[i].column);
        assert up[i] in up && up[i] in down;
        var j :| 0 <= j < |down| && down[j] == up[i];
        assert m == (down[j].table, down[j].column);
      }
      if m in Managed(down) {
        var i :| 0 <= i < |down| && m == (down[i].table, down[i].column);
        assert down[i] in down && down[i] in up;
        var j :| 0 <= j < |up| && up[j] == down[i];
        assert m == (up[j].table, up[j].column);
      }
    }
  }

  lemma InManaged(steps: seq<ColumnStep>, i: nat)
    requires i < |steps|
    ensures (steps[i].table, steps[i].column) in Managed(steps)
  {
  }
}
