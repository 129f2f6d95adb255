/** What guarded additions can bring into a schema besides columns: only their own foreign keys and
    indexes, and nothing that was there before is lost or changed. */
module SchemaGrowth {
  import opened SchemaModel
  import opened GuardedColumns

  // ---------------------------------------------------------------- one step

  ghost predicate TableGains(u: TableName, was: Table, now: Table, step: ColumnStep) {
    && was.fks <= now.fks
    && (forall fk :: fk in now.fks && fk !in was.fks ==> FromLink(step, u, fk))
    && (u != step.table ==> now.columns == was.columns && now.nullable == was.nullable)
    && now.columns - {step.column} == was.columns - {step.column}
    && now.nullable - {step.column} == was.nullable - {step.column}
  }

  /** The foreign key that belongs to the step's column. */
  predicate FromLink(step: ColumnStep, u: TableName, fk: ForeignKey) {
    u == step.table && step.link.Link? && fk == ForeignKey(step.link.name, step.column, step.link.target)
  }

  /** The index that belongs to the step's column. */
  predicate FromIndex(step: ColumnStep, x: IndexName, index: Index) {
    step.indexed && x == Ix(step.table, step.column) && index == Index(step.table, {step.column})
  }

  ghost predicate Gains(s: Schema, d: Schema, step: ColumnStep) {
    && d.tables.Keys == s.tables.Keys
    && (forall u :: u in s.tables ==> TableGains(u, s.tables[u], d.tables[u], step))
    && (forall x :: x in s.indexes ==> x in d.indexes && d.indexes[x] == s.indexes[x])
    && (forall x :: x in d.indexes && x !in s.indexes ==>
          FromIndex(step, x, d.indexes[x]) && step.table in s.tables)
  }

  /** No constraint of the table has the name of the step's own. */
  ghost predicate LinkNameFree(s: Schema, step: ColumnStep) {
    step.link.Link? && step.table in s.tables ==>
      forall fk :: fk in s.tables[step.table].fks ==> fk.name != step.link.name
  }

  lemma OpGains(s: Schema, op: Op, step: ColumnStep)
    requires op in Creates(step) || op == AddColumn(step.table, step.column, step.nullable)
    ensures Gains(s, Apply(s, op).schema, step)
    ensures op.CreateForeignKey? && Apply(s, op).Ok? ==> LinkNameFree(s, step)
    ensures !op.CreateIndex? ==> Apply(s, op).schema.indexes == s.indexes
  {
    var d := Apply(s, op).schema;
    forall u | u in s.tables ensures TableGains(u, s.tables[u], d.tables[u], step) {}
  }

  lemma GainsTrans(a: Schema, b: Schema, c: Schema, step: ColumnStep)
    requires Gains(a, b, step) && Gains(b, c, step)
    ensures Gains(a, c, step)
  {
    forall u | u in a.tables ensures TableGains(u, a.tables[u], c.tables[u], step) {
      assert TableGains(u, a.tables[u], b.tables[u], step) && TableGains(u, b.tables[u], c.tables[u], step);
    }
  }

  lemma GainsNothing(s: Schema, step: ColumnStep)
    ensures Gains(s, s, step)
  {
  }

  /** However far the `try` block gets: its index comes only after its own constraint, so a constraint name
      that was taken keeps the index away too. */
  lemma AttemptGains(s: Schema, step: ColumnStep, limit: nat)
    ensures Gains(s, Attempt(s, Creates(step), limit), step)
    ensures Attempt(s, Creates(step), limit).indexes != s.indexes ==> LinkNameFree(s, step)
  {
    hide Apply, Exec, Gains, LinkNameFree;
    var ops := Cut(Creates(step), limit);
    GainsNothing(s, step);
    if |ops| == 0 {
      assert ops == [] && Exec(s, ops) == Ok(s) by { ExecNothing(s); }
    } else if |ops| == 1 {
      assert ops == [ops[0]] && ops[0] in Creates(step);
      ExecOne(s, ops[0]);
      OpGains(s, ops[0], step);
      if !step.link.Link? {
        NoLinkFree(s, step);
      }
    } else {
      assert ops == [ops[0], ops[1]] && ops[0] in Creates(step) && ops[1] in Creates(step);
      ExecTwo(s, ops[0], ops[1]);
      OpGains(s, ops[0], step);
      var at := Apply(s, ops[0]).schema;
      OpGains(at, ops[1], step);
      GainsTrans(s, at, Apply(at, ops[1]).schema, step);
    }
  }

  lemma NoLinkFree(s: Schema, step: ColumnStep)
    requires !step.link.Link?
    ensures LinkNameFree(s, step)
  {
  }

  lemma AddGains(s: Schema, step: ColumnStep, guard: Guard, faults: Faults)
    ensures Gains(s, Add(s, step, guard, faults).schema, step)
    ensures Add(s, step, guard, faults).schema.indexes != s.indexes ==> LinkNameFree(s, step)
  {
    hide Apply, Gains, Attempt, Creates;
    GainsNothing(s, step);
    var op := AddColumn(step.table, step.column, step.nullable);
    var at := Apply(s, op).schema;
    OpGains(s, op, step);
    var limit := faults(step.table, step.column);
    AttemptGains(at, step, limit);
    GainsTrans(s, at, Attempt(at, Creates(step), limit), step);
    if LinkNameFree(at, step) {
      GainsKeepsFree(s, at, step);
    }
  }

  lemma GainsKeepsFree(s: Schema, d: Schema, step: ColumnStep)
    requires Gains(s, d, step) && LinkNameFree(d, step)
    ensures LinkNameFree(s, step)
  {
    if step.table in s.tables {
      assert TableGains(step.table, s.tables[step.table], d.tables[step.table], step);
    }
  }

  // ---------------------------------------------------------------- whole scripts

  /** The same for a script: what is new belongs to one of its steps. */
  ghost predicate Grown(s: Schema, d: Schema, steps: seq<ColumnStep>) {
    && d.tables.Keys == s.tables.Keys
    && (forall u :: u in s.tables ==> s.tables[u].fks <= d.tables[u].fks)
    && (forall u, fk :: u in s.tables && fk in d.tables[u].fks && fk !in s.tables[u].fks ==> LinkedBy(steps, u, fk))
    && (forall x :: x in s.indexes ==> x in d.indexes && d.indexes[x] == s.indexes[x])
    && (forall x :: x in d.indexes && x !in s.indexes ==> IndexedBy(s, steps, x, d.indexes[x]))
  }

  ghost predicate LinkedBy(steps: seq<ColumnStep>, u: TableName, fk: ForeignKey) {
    exists step :: step in steps && FromLink(step, u, fk)
  }

  ghost predicate IndexedBy(s: Schema, steps: seq<ColumnStep>, x: IndexName, index: Index) {
    exists step :: step in steps && FromIndex(step, x, index) && step.table in s.tables && LinkNameFree(s, step)
  }

  lemma GrownSnoc(s: Schema, at: Schema, d: Schema, steps: seq<ColumnStep>)
    requires |steps| > 0 && Grown(s, at, steps[..|steps| - 1]) && Gains(at, d, steps[|steps| - 1])
    requires d.indexes != at.indexes ==> LinkNameFree(at, steps[|steps| - 1])
    ensures Grown(s, d, steps)
  {
    var init, last := steps[..|steps| - 1], steps[|steps| - 1];
    assert last in steps && forall step :: step in init ==> step in steps;
    hide FromLink, FromIndex;
    forall u | u in s.tables ensures s.tables[u].fks <= d.tables[u].fks {
      assert TableGains(u, at.tables[u], d.tables[u], last);
    }
    forall u, fk | u in s.tables && fk in d.tables[u].fks && fk !in s.tables[u].fks
      ensures LinkedBy(steps, u, fk)
    {
      assert TableGains(u, at.tables[u], d.tables[u], last);
      if fk in at.tables[u].fks {
        assert LinkedBy(init, u, fk);
      }
    }
    forall x | x in d.indexes && x !in s.indexes ensures IndexedBy(s, steps, x, d.indexes[x]) {
      if x in at.indexes {
        assert IndexedBy(s, init, x, at.indexes[x]);
      } else {
        assert LinkNameFree(s, last);
      }
    }
  }

  lemma {:induction false} AddAllGrown(s: Schema, steps: seq<ColumnStep>, guard: Guard, faults: Faults)
    ensures Grown(s, AddAll(s, steps, guard, faults).schema, steps)
  {
    if |steps| > 0 {
      hide Add, Gains, Grown, LinkNameFree;
      var init, last := steps[..|steps| - 1], steps[|steps| - 1];
      AddAllGrown(s, init, guard, faults);
      var at := AddAll(s, init, guard, faults).schema;
      if AddAll(s, init, guard, faults).Ok? {
        AddGains(at, last, guard, faults);
      } else {
        GainsNothing(at, last);
      }
      GrownSnoc(s, at, AddAll(s, steps, guard, faults).schema, steps);
    }
  }
}
