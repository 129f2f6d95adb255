/** The schema that guarded additions leave, exactly: which columns, which foreign keys, which indexes, and
    which columns accept NULL. */
module ColumnAdditions {
  import opened SchemaModel
  import opened GuardedColumns
  import opened SchemaGrowth

  // ---------------------------------------------------------------- what a step does

  /** The step has something to add: its table is there, without the column. */
  predicate Due(s: Schema, step: ColumnStep) {
    step.table in s.tables && step.column !in s.tables[step.table].columns
  }

  /** Its constraint is made: the target has its key, the name is free, and nothing failed before. */
  ghost predicate LinkMade(s: Schema, step: ColumnStep, limit: nat) {
    && Due(s, step) && step.link.Link?
    && step.link.target in s.tables && "id" in s.tables[step.link.target].columns
    && (forall fk :: fk in s.tables[step.table].fks ==> fk.name != step.link.name)
    && limit >= 1
  }

  /** Its index is made: the name is free, the constraint before it, if any, was made, and nothing failed
      before. */
  ghost predicate IndexMade(s: Schema, step: ColumnStep, limit: nat) {
    && Due(s, step) && step.indexed
    && Ix(step.table, step.column) !in s.indexes
    && if step.link.Link? then LinkMade(s, step, limit) && limit >= 2 else limit >= 1
  }

  // ---------------------------------------------------------------- what a script does

  ghost predicate AddsColumn(steps: seq<ColumnStep>, s: Schema, u: TableName, c: string) {
    exists step :: step in steps && Due(s, step) && step.table == u && step.column == c
  }

  ghost predicate AddsLink(steps: seq<ColumnStep>, s: Schema, faults: Faults, u: TableName, fk: ForeignKey) {
    exists step :: step in steps && LinkMade(s, step, faults(step.table, step.column))
      && u == step.table && fk == ForeignKey(step.link.name, step.column, step.link.target)
  }

  ghost predicate AddsIndex(steps: seq<ColumnStep>, s: Schema, faults: Faults, x: IndexName, index: Index) {
    exists step :: step in steps && IndexMade(s, step, faults(step.table, step.column))
      && x == Ix(step.table, step.column) && index == Index(step.table, {step.column})
  }

  ghost predicate TableEnlarged(s: Schema, d: Schema, steps: seq<ColumnStep>, faults: Faults, u: TableName)
    requires u in s.tables && u in d.tables
  {
    var was, now := s.tables[u], d.tables[u];
    && (forall c :: c in now.columns <==> c in was.columns || AddsColumn(steps, s, u, c))
    && (forall c :: !AddsColumn(steps, s, u, c) ==> (c in now.nullable <==> c in was.nullable))
    && (forall fk :: fk in now.fks <==> fk in was.fks || AddsLink(steps, s, faults, u, fk))
  }

  /** `d` is `s` with the columns, foreign keys and indexes of the due steps, and nothing else: a new column
      accepts NULL when its step says so, and every other column accepts it as before. */
  ghost predicate Enlarged(s: Schema, d: Schema, steps: seq<ColumnStep>, faults: Faults) {
    && d.tables.Keys == s.tables.Keys
    && (forall u :: u in s.tables ==> TableEnlarged(s, d, steps, faults, u))
    && (forall step :: step in steps && Due(s, step) ==>
          (step.column in d.tables[step.table].nullable <==> step.nullable))
    && (forall x :: x in s.indexes ==> x in d.indexes && d.indexes[x] == s.indexes[x])
    && (forall x :: x in d.indexes && x !in s.indexes ==> AddsIndex(steps, s, faults, x, d.indexes[x]))
    && (forall step :: step in steps && IndexMade(s, step, faults(step.table, step.column)) ==>
          Ix(step.table, step.column) in d.indexes)
  }

  // ---------------------------------------------------------------- one step

  /** The same for one step with its own limit. */
  ghost predicate StepAdds(s: Schema, d: Schema, step: ColumnStep, limit: nat) {
    && d.tables.Keys == s.tables.Keys
    && (forall u :: u in s.tables && u != step.table ==> d.tables[u] == s.tables[u])
    && (step.table in s.tables ==>
          var was, now := s.tables[step.table], d.tables[step.table];
          && now.columns == was.columns + {step.column}
          && now.nullable == (if !Due(s, step) then was.nullable
                              else if step.nullable then was.nullable + {step.column}
                              else was.nullable - {step.column})
          && now.fks == was.fks + if LinkMade(s, step, limit)
                                  then {ForeignKey(step.link.name, step.column, step.link.target)} else {})
    && d.indexes == if IndexMade(s, step, limit)
                    then s.indexes[Ix(step.table, step.column) := Index(step.table, {step.column})] else s.indexes
  }

  lemma AddMakes(s: Schema, step: ColumnStep, guard: Guard, faults: Faults)
    requires step.column != KEY && (guard.inspected || !guard.skipsMissing)
    requires Add(s, step, guard, faults).Ok?
    ensures StepAdds(s, Add(s, step, guard, faults).schema, step, faults(step.table, step.column))
  {
    hide Apply, Attempt, Creates;
    var limit := faults(step.table, step.column);
    if Due(s, step) {
      var at := Apply(s, AddColumn(step.table, step.column, step.nullable)).schema;
      ColumnAdded(s, step.table, step.column, step.nullable);
      AttemptMakes(s, at, step, limit);
    } else {
      ColumnAdded(s, step.table, step.column, step.nullable);
      if step.table in s.tables {
        assert s.tables[step.table].columns + {step.column} == s.tables[step.table].columns;
      }
    }
  }

  lemma AttemptMakes(s: Schema, at: Schema, step: ColumnStep, limit: nat)
    requires Due(s, step) && step.column != KEY
    requires Apply(s, AddColumn(step.table, step.column, step.nullable)) == Ok(at)
    ensures StepAdds(s, Attempt(at, Creates(step), limit), step, limit)
  {
    hide Apply, Exec, LinkMade, IndexMade;
    var ops := Cut(Creates(step), limit);
    ColumnMade(s, at, step);
    NotMade(s, step, limit);
    if |ops| == 0 {
      assert ops == [] && Exec(at, ops) == Ok(at) by { ExecNothing(at); }
    } else if |ops| == 1 {
      assert ops == [ops[0]];
      ExecOne(at, ops[0]);
      if step.link.Link? {
        LinkingMakes(s, at, step, limit);
      } else {
        IndexingMakes(s, at, step, limit);
      }
    } else {
      assert ops == [ops[0], ops[1]];
      ExecTwo(at, ops[0], ops[1]);
      LinkingMakes(s, at, step, limit);
      IndexingMakes(s, Apply(at, ops[0]).schema, step, limit);
    }
  }

  /** The table with its new column, and nothing else yet. */
  ghost predicate WithColumn(s: Schema, at: Schema, step: ColumnStep)
    requires Due(s, step)
  {
    var was := s.tables[step.table];
    at == WithTable(s, step.table, was.(
      columns := was.columns + {step.column},
      nullable := if step.nullable then was.nullable + {step.column} else was.nullable - {step.column}))
  }

  lemma ColumnMade(s: Schema, at: Schema, step: ColumnStep)
    requires Due(s, step)
    requires Apply(s, AddColumn(step.table, step.column, step.nullable)) == Ok(at)
    ensures WithColumn(s, at, step)
  {
  }

  lemma NotMade(s: Schema, step: ColumnStep, limit: nat)
    ensures |Cut(Creates(step), limit)| == 0 ==> !LinkMade(s, step, limit) && !IndexMade(s, step, limit)
    ensures |Cut(Creates(step), limit)| == 1 && step.link.Link? ==> !IndexMade(s, step, limit)
    ensures !step.link.Link? ==> !LinkMade(s, step, limit)
  {
  }

  lemma LinkingMakes(s: Schema, at: Schema, step: ColumnStep, limit: nat)
    requires Due(s, step) && step.column != KEY && WithColumn(s, at, step) && step.link.Link? && limit >= 1
    ensures var made := Apply(at, CreateForeignKey(step.link.name, step.table, step.link.target, step.column));
            && (made.Ok? <==> LinkMade(s, step, limit))
            && made.schema.tables.Keys == s.tables.Keys && made.schema.indexes == s.indexes
            && (forall u :: u in s.tables && u != step.table ==> made.schema.tables[u] == s.tables[u])
            && made.schema.tables[step.table]
               == at.tables[step.table].(fks := s.tables[step.table].fks
                    + if made.Ok? then {ForeignKey(step.link.name, step.column, step.link.target)} else {})
  {
    assert HasKey(at, step.link.target) <==> HasKey(s, step.link.target);
  }

  lemma IndexingMakes(s: Schema, at: Schema, step: ColumnStep, limit: nat)
    requires Due(s, step) && at.indexes == s.indexes && step.indexed
    requires step.table in at.tables && step.column in at.tables[step.table].columns
    requires if step.link.Link? then limit >= 2 else limit >= 1
    ensures var made := Apply(at, CreateIndex(Ix(step.table, step.column), step.table, {step.column})).schema;
            && made.tables == at.tables
            && (step.link.Link? && !LinkMade(s, step, limit) ==> !IndexMade(s, step, limit))
            && made.indexes == (if Ix(step.table, step.column) in s.indexes then s.indexes
                                else s.indexes[Ix(step.table, step.column) := Index(step.table, {step.column})])
            && (IndexMade(s, step, limit) <==> Ix(step.table, step.column) !in s.indexes
                                               && (step.link.Link? ==> LinkMade(s, step, limit)))
  {
  }

  // ---------------------------------------------------------------- whole scripts

  /** What the earlier steps of a script add does not get in the way of a later one. */
  lemma SameChances(s: Schema, at: Schema, steps: seq<ColumnStep>, faults: Faults, limit: nat)
    requires |steps| > 0 && StepsOk(steps) && Enlarged(s, at, steps[..|steps| - 1], faults)
    ensures var last := steps[|steps| - 1];
            && (Due(at, last) <==> Due(s, last))
            && (LinkMade(at, last, limit) <==> LinkMade(s, last, limit))
            && (IndexMade(at, last, limit) <==> IndexMade(s, last, limit))
  {
    hide Apart;
    var n := |steps| - 1;
    var init, last := steps[..n], steps[n];
    forall step | step in init ensures Apart(step, last) && step.column != KEY {
      var i :| 0 <= i < n && init[i] == step;
      assert Apart(steps[i], steps[n]);
    }
    SameDue(s, at, init, faults, last);
    if Due(s, last) && last.link.Link? {
      SameLink(s, at, init, faults, last);
    }
    SameIndex(s, at, init, faults, last);
  }

  lemma SameDue(s: Schema, at: Schema, init: seq<ColumnStep>, faults: Faults, last: ColumnStep)
    requires Enlarged(s, at, init, faults)
    requires forall step :: step in init ==> Apart(step, last)
    ensures Due(at, last) <==> Due(s, last)
  {
    if last.table in s.tables {
      assert TableEnlarged(s, at, init, faults, last.table);
      assert !AddsColumn(init, s, last.table, last.column);
    }
  }

  lemma SameLink(s: Schema, at: Schema, init: seq<ColumnStep>, faults: Faults, last: ColumnStep)
    requires Enlarged(s, at, init, faults) && last.table in s.tables && last.link.Link?
    requires forall step :: step in init ==> Apart(step, last) && step.column != KEY
    ensures HasKey(at, last.link.target) <==> HasKey(s, last.link.target)
    ensures (forall fk :: fk in at.tables[last.table].fks ==> fk.name != last.link.name)
            <==> (forall fk :: fk in s.tables[last.table].fks ==> fk.name != last.link.name)
  {
    assert TableEnlarged(s, at, init, faults, last.table);
    if last.link.target in s.tables {
      assert TableEnlarged(s, at, init, faults, last.link.target);
      assert !AddsColumn(init, s, last.link.target, KEY);
    }
    forall fk | AddsLink(init, s, faults, last.table, fk) ensures fk.name != last.link.name {}
  }

  lemma SameIndex(s: Schema, at: Schema, init: seq<ColumnStep>, faults: Faults, last: ColumnStep)
    requires Enlarged(s, at, init, faults)
    requires forall step :: step in init ==> Apart(step, last)
    ensures Ix(last.table, last.column) in at.indexes <==> Ix(last.table, last.column) in s.indexes
  {
    hide TableEnlarged;
    var x := Ix(last.table, last.column);
    forall index ensures !AddsIndex(init, s, faults, x, index) {}
  }

  lemma MadeFresh(s: Schema, step: ColumnStep, limit: nat)
    requires IndexMade(s, step, limit)
    ensures Ix(step.table, step.column) !in s.indexes
  {
  }

  lemma EnlargedSnoc(s: Schema, at: Schema, d: Schema, steps: seq<ColumnStep>, faults: Faults)
    requires |steps| > 0 && StepsOk(steps) && Enlarged(s, at, steps[..|steps| - 1], faults)
    requires var last := steps[|steps| - 1]; StepAdds(at, d, last, faults(last.table, last.column))
    ensures Enlarged(s, d, steps, faults)
  {
    hide LinkMade, IndexMade, Due, TableEnlarged, StepsOk;
    var n := |steps| - 1;
    var init, last := steps[..n], steps[n];
    SameChances(s, at, steps, faults, faults(last.table, last.column));
    if IndexMade(at, last, faults(last.table, last.column)) {
      MadeFresh(at, last, faults(last.table, last.column));
    }
    assert steps == init + [last];
    assert forall step :: step in steps <==> step in init || step == last;
    forall u | u in s.tables ensures TableEnlarged(s, d, steps, faults, u) {
      TableSnoc(s, at, d, steps, faults, u);
    }
    NewNullability(s, at, d, steps, faults);
    IndexesSnoc(s, at, d, steps, faults);
  }

  lemma IndexesSnoc(s: Schema, at: Schema, d: Schema, steps: seq<ColumnStep>, faults: Faults)
    requires |steps| > 0 && Enlarged(s, at, steps[..|steps| - 1], faults)
    requires var last := steps[|steps| - 1];
             var limit := faults(last.table, last.column);
             && StepAdds(at, d, last, limit)
             && (IndexMade(at, last, limit) <==> IndexMade(s, last, limit))
             && (IndexMade(at, last, limit) ==> Ix(last.table, last.column) !in at.indexes)
    ensures forall x :: x in s.indexes ==> x in d.indexes && d.indexes[x] == s.indexes[x]
    ensures forall x :: x in d.indexes && x !in s.indexes ==> AddsIndex(steps, s, faults, x, d.indexes[x])
    ensures forall step :: step in steps && IndexMade(s, step, faults(step.table, step.column)) ==>
              Ix(step.table, step.column) in d.indexes
  {
    hide LinkMade, IndexMade, Due, TableEnlarged;
    var n := |steps| - 1;
    var init, last := steps[..n], steps[n];
    assert steps == init + [last];
    forall x | x in d.indexes && x !in s.indexes ensures AddsIndex(steps, s, faults, x, d.indexes[x]) {
      if x in at.indexes {
        assert AddsIndex(init, s, faults, x, at.indexes[x]);
      }
    }
  }

  lemma LinksSnoc(s: Schema, steps: seq<ColumnStep>, faults: Faults, u: TableName, fk: ForeignKey)
    requires |steps| > 0
    ensures var last := steps[|steps| - 1];
            AddsLink(steps, s, faults, u, fk)
            <==> AddsLink(steps[..|steps| - 1], s, faults, u, fk)
                 || (LinkMade(s, last, faults(last.table, last.column)) && FromLink(last, u, fk))
  {
    var n := |steps| - 1;
    assert steps == steps[..n] + [steps[n]];
  }

  lemma TableSnoc(s: Schema, at: Schema, d: Schema, steps: seq<ColumnStep>, faults: Faults, u: TableName)
    requires |steps| > 0 && u in s.tables && at.tables.Keys == s.tables.Keys
    requires TableEnlarged(s, at, steps[..|steps| - 1], faults, u)
    requires var last := steps[|steps| - 1];
             var limit := faults(last.table, last.column);
             && StepAdds(at, d, last, limit)
             && (Due(at, last) <==> Due(s, last))
             && (LinkMade(at, last, limit) <==> LinkMade(s, last, limit))
    ensures TableEnlarged(s, d, steps, faults, u)
  {
    hide LinkMade, IndexMade;
    var n := |steps| - 1;
    var init, last := steps[..n], steps[n];
    assert steps == init + [last];
    forall c ensures AddsColumn(steps, s, u, c)
                     <==> AddsColumn(init, s, u, c) || (Due(s, last) && last.table == u && last.column == c) {}
    forall fk ensures AddsLink(steps, s, faults, u, fk)
                      <==> AddsLink(init, s, faults, u, fk)
                           || (LinkMade(s, last, faults(last.table, last.column)) && FromLink(last, u, fk))
    {
      LinksSnoc(s, steps, faults, u, fk);
    }
    hide AddsColumn, AddsLink;
  }

  lemma NewNullability(s: Schema, at: Schema, d: Schema, steps: seq<ColumnStep>, faults: Faults)
    requires |steps| > 0 && StepsOk(steps) && Enlarged(s, at, steps[..|steps| - 1], faults)
    requires var last := steps[|steps| - 1];
             && StepAdds(at, d, last, faults(last.table, last.column))
             && (Due(at, last) <==> Due(s, last))
    ensures forall step :: step in steps && Due(s, step) ==>
              (step.column in d.tables[step.table].nullable <==> step.nullable)
  {
    hide LinkMade, IndexMade, TableEnlarged;
    var n := |steps| - 1;
    var init, last := steps[..n], steps[n];
    forall step | step in steps && Due(s, step)
      ensures step.column in d.tables[step.table].nullable <==> step.nullable
    {
      var i :| 0 <= i <= n && steps[i] == step;
      if i < n {
        assert init[i] == step && Apart(steps[i], steps[n]);
      }
    }
  }

  /** A script that gets through leaves exactly the enlarged schema, whatever fails in its `try` blocks. */
  lemma {:induction false} AddAllMakes(s: Schema, steps: seq<ColumnStep>, guard: Guard, faults: Faults)
    requires StepsOk(steps) && (guard.inspected || !guard.skipsMissing)
    requires AddAll(s, steps, guard, faults).Ok?
    ensures Enlarged(s, AddAll(s, steps, guard, faults).schema, steps, faults)
  {
    if |steps| > 0 {
      hide Add, Enlarged, StepAdds;
      var init, last := steps[..|steps| - 1], steps[|steps| - 1];
      StepsOkSnoc(steps);
      AddAllMakes(s, init, guard, faults);
      var at := AddAll(s, init, guard, faults).schema;
      AddMakes(at, last, guard, faults);
      EnlargedSnoc(s, at, AddAll(s, steps, guard, faults).schema, steps, faults);
    }
  }

  /** The enlarged schema is the only one it can leave: the steps, the start and the failures determine it. */
  lemma AddAllIsEnlarged(s: Schema, d: Schema, steps: seq<ColumnStep>, guard: Guard, faults: Faults)
    requires StepsOk(steps) && (guard.inspected || !guard.skipsMissing)
    requires AddAll(s, steps, guard, faults).Ok?
    ensures AddAll(s, steps, guard, faults) == Ok(d) <==> Enlarged(s, d, steps, faults)
  {
    hide AddAll, Enlarged, StepsOk;
    AddAllMakes(s, steps, guard, faults);
    if Enlarged(s, d, steps, faults) {
      EnlargedOnce(s, d, AddAll(s, steps, guard, faults).schema, steps, faults);
    }
  }

  lemma EnlargedOnce(s: Schema, d: Schema, e: Schema, steps: seq<ColumnStep>, faults: Faults)
    requires Enlarged(s, d, steps, faults) && Enlarged(s, e, steps, faults)
    ensures d == e
  {
    hide LinkMade, IndexMade, Due;
    forall u | u in s.tables ensures d.tables[u] == e.tables[u] {
      assert TableEnlarged(s, d, steps, faults, u) && TableEnlarged(s, e, steps, faults, u);
      forall c ensures c in d.tables[u].nullable <==> c in e.tables[u].nullable {
        if AddsColumn(steps, s, u, c) {
          var step :| step in steps && Due(s, step) && step.table == u && step.column == c;
        }
      }
      assert d.tables[u].columns == e.tables[u].columns && d.tables[u].nullable == e.tables[u].nullable;
      assert d.tables[u].fks == e.tables[u].fks;
    }
    assert d.tables == e.tables;
    IndexesInclude(s, d, e, steps, faults);
    IndexesInclude(s, e, d, steps, faults);
    assert d.indexes == e.indexes;
  }

  lemma IndexesInclude(s: Schema, d: Schema, e: Schema, steps: seq<ColumnStep>, faults: Faults)
    requires Enlarged(s, d, steps, faults) && Enlarged(s, e, steps, faults)
    ensures forall x :: x in d.indexes ==> x in e.indexes && e.indexes[x] == d.indexes[x]
  {
    hide LinkMade, IndexMade, Due, TableEnlarged;
    forall x | x in d.indexes ensures x in e.indexes && e.indexes[x] == d.indexes[x] {
      if x !in s.indexes {
        assert AddsIndex(steps, s, faults, x, d.indexes[x]);
        assert x in e.indexes;
        assert AddsIndex(steps, s, faults, x, e.indexes[x]);
      }
    }
  }
}
