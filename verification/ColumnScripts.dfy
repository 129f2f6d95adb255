/** The guarded scripts as they run: what they read once, what they read again, and where they stop. */
module ColumnScripts {
  import opened SchemaModel
  import opened GuardedColumns
  import opened ColumnAdditions

  /** A `try` block around `ops`, cut short after `limit` of them by a failure outside the schema. */
  method TryBlock(db: Connection, ops: seq<Op>, limit: nat)
    modifies db
    ensures db.schema == Attempt(old(db.schema), ops, limit)
    ensures Sound(old(db.schema)) ==> Sound(db.schema)
  {
    hide Apply, Sound;
    var block := Cut(ops, limit);
    var ok := db.Migrate(block);
  }

  /** The column list in hand agrees with the table of step `i`, but for the columns of earlier steps. */
  ghost predicate ListInHand(cols: set<string>, s: Schema, inspected: bool, steps: seq<ColumnStep>, i: nat)
    requires i < |steps|
  {
    forall c :: (forall j :: 0 <= j < i ==> (steps[j].table, steps[j].column) != (steps[i].table, c)) ==>
      (c in cols <==> inspected && Present(s, steps[i].table, c))
  }

  /** The guarded additions: the list of tables is read once at the start, the columns of a table when its
      first step comes, and neither is read again. */
  method AddColumns(db: Connection, steps: seq<ColumnStep>, guard: Guard, faults: Faults) returns (ok: bool)
    requires StepsOk(steps)
    modifies db
    ensures (if ok then Ok(db.schema) else Refused(db.schema)) == AddAll(old(db.schema), steps, guard, faults)
    ensures ok && (guard.inspected || !guard.skipsMissing) ==> Enlarged(old(db.schema), db.schema, steps, faults)
    ensures !guard.inspected && guard.skipsMissing ==> ok && db.schema == old(db.schema)
    ensures Sound(old(db.schema)) ==> Sound(db.schema)
  {
    ok := true;
    var tables := if guard.inspected then db.schema.tables.Keys else {};
    var cols: set<string> := {};
    var i := 0;
    while i < |steps|
      invariant 0 <= i <= |steps| && ok
      invariant AddAll(old(db.schema), steps[..i], guard, faults) == Ok(db.schema)
      invariant db.schema.tables.Keys == old(db.schema).tables.Keys
      invariant !guard.inspected && guard.skipsMissing ==> db.schema == old(db.schema)
      invariant 0 < i < |steps| && steps[i].table == steps[i - 1].table ==>
                  ListInHand(cols, db.schema, guard.inspected, steps, i)
      invariant Sound(old(db.schema)) ==> Sound(db.schema)
    {
      hide Apply, Sound, Apart;
      var step := steps[i];
      if i == 0 || step.table != steps[i - 1].table {
        cols := if step.table in tables then db.schema.tables[step.table].columns else {};
      }
      assert ListInHand(cols, db.schema, guard.inspected, steps, i);
      NotBefore(steps, i);
      assert step.column in cols <==> guard.inspected && Present(db.schema, step.table, step.column);
      ghost var before := db.schema;
      assert steps[..i + 1][..i] == steps[..i];
      if step.column !in cols && !(guard.skipsMissing && step.table !in tables) {
        ok := db.Execute(AddColumn(step.table, step.column, step.nullable));
        if !ok {
          AddRefused(old(db.schema), steps, i + 1, guard, faults);
          return;
        }
        TryBlock(db, Creates(step), faults(step.table, step.column));
      }
      assert Add(before, step, guard, faults) == Ok(db.schema);
      ListKept(before, steps, i, guard, faults, cols);
      i := i + 1;
    }
    assert steps[..i] == steps;
    if guard.inspected || !guard.skipsMissing {
      AddAllMakes(old(db.schema), steps, guard, faults);
    }
  }

  lemma NotBefore(steps: seq<ColumnStep>, i: nat)
    requires StepsOk(steps) && i < |steps|
    ensures forall j :: 0 <= j < i ==> (steps[j].table, steps[j].column) != (steps[i].table, steps[i].column)
  {
    forall j | 0 <= j < i ensures (steps[j].table, steps[j].column) != (steps[i].table, steps[i].column) {
      assert Apart(steps[j], steps[i]);
    }
  }

  lemma AddRefused(s: Schema, steps: seq<ColumnStep>, n: nat, guard: Guard, faults: Faults)
    requires n <= |steps| && AddAll(s, steps[..n], guard, faults).Refused?
    ensures AddAll(s, steps, guard, faults) == AddAll(s, steps[..n], guard, faults)
    decreases |steps| - n
  {
    hide Add;
    if n < |steps| {
      assert steps[..n + 1][..n] == steps[..n];
      AddRefused(s, steps, n + 1, guard, faults);
    } else {
      assert steps[..n] == steps;
    }
  }

  lemma BlindAdd(s: Schema, step: ColumnStep, guard: Guard, faults: Faults)
    requires !guard.inspected && guard.skipsMissing
    ensures Add(s, step, guard, faults) == Ok(s)
  {
  }

  /** A step changes no column but its own, so the list in hand serves the next step of the table. */
  lemma ListKept(s: Schema, steps: seq<ColumnStep>, i: nat, guard: Guard, faults: Faults, cols: set<string>)
    requires i < |steps| && ListInHand(cols, s, guard.inspected, steps, i)
    requires Add(s, steps[i], guard, faults).Ok?
    ensures var d := Add(s, steps[i], guard, faults).schema;
            && d.tables.Keys == s.tables.Keys
            && (i + 1 < |steps| && steps[i + 1].table == steps[i].table ==>
                  ListInHand(cols, d, guard.inspected, steps, i + 1))
  {
    hide Add, Columns;
    var d := Add(s, steps[i], guard, faults).schema;
    var own := (steps[i].table, steps[i].column);
    if guard.inspected || !guard.skipsMissing {
      AddExactly(s, steps[i], guard, faults);
      forall t, c ensures (t, c) != own ==> (Present(d, t, c) <==> Present(s, t, c)) {
        PlusPresent(s, d, {own}, t, c);
      }
      PlusKeys(s, d, {own});
    } else {
      BlindAdd(s, steps[i], guard, faults);
    }
  }

  /** The guarded removals, with the lists read in the same places. */
  method DropColumns(db: Connection, steps: seq<ColumnStep>, inspected: bool, faults: Faults) returns (ok: bool)
    requires StepsOk(steps)
    modifies db
    ensures (if ok then Ok(db.schema) else Refused(db.schema)) == RemoveAll(old(db.schema), steps, inspected, faults)
    ensures ok && if inspected then Columns(db.schema) == ColumnsMinus(old(db.schema), Managed(steps))
                  else db.schema == old(db.schema)
    ensures Sound(old(db.schema)) ==> Sound(db.schema)
  {
    ok := true;
    var tables := if inspected then db.schema.tables.Keys else {};
    var cols: set<string> := {};
    var i := 0;
    while i < |steps|
      invariant 0 <= i <= |steps| && ok
      invariant RemoveAll(old(db.schema), steps[..i], inspected, faults) == Ok(db.schema)
      invariant db.schema.tables.Keys == old(db.schema).tables.Keys
      invariant !inspected ==> db.schema == old(db.schema)
      invariant 0 < i < |steps| && steps[i].table == steps[i - 1].table ==>
                  ListInHand(cols, db.schema, inspected, steps, i)
      invariant Sound(old(db.schema)) ==> Sound(db.schema)
    {
      hide Apply, Sound, Apart, Columns;
      var step := steps[i];
      if i == 0 || step.table != steps[i - 1].table {
        cols := if step.table in tables then db.schema.tables[step.table].columns else {};
      }
      assert ListInHand(cols, db.schema, inspected, steps, i);
      NotBefore(steps, i);
      assert step.column in cols <==> inspected && Present(db.schema, step.table, step.column);
      ghost var before := db.schema;
      assert steps[..i + 1][..i] == steps[..i];
      RemovalKept(before, steps, i, inspected, faults, cols);
      if step.column in cols {
        TryBlock(db, Drops(step), faults(step.table, step.column));
        ok := db.Execute(DropColumn(step.table, step.column));
      }
      assert Remove(before, step, inspected, faults) == Ok(db.schema);
      i := i + 1;
    }
    assert steps[..i] == steps;
    if inspected {
      RemoveAllExactly(old(db.schema), steps, faults);
    }
  }

  lemma RemovalKept(s: Schema, steps: seq<ColumnStep>, i: nat, inspected: bool, faults: Faults, cols: set<string>)
    requires i < |steps| && steps[i].column != KEY && ListInHand(cols, s, inspected, steps, i)
    ensures var d := Remove(s, steps[i], inspected, faults).schema;
            && Remove(s, steps[i], inspected, faults).Ok?
            && d.tables.Keys == s.tables.Keys
            && (i + 1 < |steps| && steps[i + 1].table == steps[i].table ==>
                  ListInHand(cols, d, inspected, steps, i + 1))
  {
    if inspected {
      hide Remove, Columns;
      var d := Remove(s, steps[i], true, faults).schema;
      var own := (steps[i].table, steps[i].column);
      RemoveExactly(s, steps[i], faults);
      forall t, c ensures (t, c) != own ==> (Present(d, t, c) <==> Present(s, t, c)) {
        MinusPresent(s, d, {own}, t, c);
      }
      MinusKeys(s, d, {own});
    }
  }
}
