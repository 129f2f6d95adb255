/** Guarded additions followed by the guarded removals: when the pair leaves exactly the start without its
    managed columns, and when it leaves the start itself. */
module ColumnRoundTrips {
  import opened SchemaModel
  import opened GuardedColumns
  import opened SchemaGrowth
  import opened ColumnTraces

  function Own(step: ColumnStep): IndexName {
    Ix(step.table, step.column)
  }

  // ---------------------------------------------------------------- removals only take away

  ghost predicate Takes(s: Schema, d: Schema) {
    && d.tables.Keys == s.tables.Keys
    && (forall u :: u in s.tables ==> TableTakes(s.tables[u], d.tables[u]))
    && (forall x :: x in d.indexes ==> x in s.indexes && d.indexes[x] == s.indexes[x])
  }

  ghost predicate TableTakes(was: Table, now: Table) {
    now.columns <= was.columns && now.nullable <= was.nullable && now.fks <= was.fks
  }

  lemma DropTakes(s: Schema, op: Op)
    requires op.DropIndex? || op.DropConstraint? || op.DropColumn?
    ensures Takes(s, Apply(s, op).schema)
  {
  }

  lemma TakesSelf(s: Schema)
    ensures Takes(s, s)
  {
  }

  lemma TakesTrans(a: Schema, b: Schema, c: Schema)
    requires Takes(a, b) && Takes(b, c)
    ensures Takes(a, c)
  {
    forall u | u in a.tables ensures TableTakes(a.tables[u], c.tables[u]) {
      assert TableTakes(a.tables[u], b.tables[u]) && TableTakes(b.tables[u], c.tables[u]);
    }
  }

  lemma TakesKeeps(s: Schema, d: Schema)
    requires Takes(s, d)
    ensures forall step :: LinkNameFree(s, step) ==> LinkNameFree(d, step)
    ensures forall step :: NameFree(s, step) ==> NameFree(d, step)
    ensures forall t, c :: NoTrace(s, t, c) ==> NoTrace(d, t, c)
  {
    assert forall u :: u in s.tables ==> TableTakes(s.tables[u], d.tables[u]);
  }

  /** The first name that the downgrade drops along with the column is not in use. */
  ghost predicate NameFree(s: Schema, step: ColumnStep) {
    step.table in s.tables ==> if step.indexed then Own(step) !in s.indexes else LinkNameFree(s, step)
  }

  /** The caught drops: the first one, if it is tried, frees its name; the constraint after an index is
      tried only when the index was there. */
  lemma DropsTake(s: Schema, step: ColumnStep, limit: nat)
    ensures var d := Attempt(s, Drops(step), limit);
            && Takes(s, d)
            && (limit > 0 ==> NameFree(d, step))
            && (limit > 1 && (step.indexed ==> Own(step) in s.indexes) ==> LinkNameFree(d, step))
  {
    hide Exec, Takes;
    var ops := Cut(Drops(step), limit);
    TakesSelf(s);
    if |ops| == 0 {
      assert ops == [] && Exec(s, ops) == Ok(s) by { ExecNothing(s); }
    } else if |ops| == 1 {
      assert ops == [ops[0]];
      ExecOne(s, ops[0]);
      DropTakes(s, ops[0]);
    } else {
      assert ops == [ops[0], ops[1]];
      ExecTwo(s, ops[0], ops[1]);
      DropTakes(s, ops[0]);
      var at := Apply(s, ops[0]).schema;
      DropTakes(at, ops[1]);
      TakesTrans(s, at, Apply(at, ops[1]).schema);
    }
  }

  lemma RemoveTakes(s: Schema, step: ColumnStep, faults: Faults)
    ensures var d, limit := Remove(s, step, true, faults).schema, faults(step.table, step.column);
            && Takes(s, d)
            && (Present(s, step.table, step.column) && limit > 0 ==> NameFree(d, step))
            && (Present(s, step.table, step.column) && limit > 1 && (step.indexed ==> Own(step) in s.indexes)
                ==> LinkNameFree(d, step))
  {
    hide Takes, NameFree, LinkNameFree, Attempt, Drops, Apply;
    TakesSelf(s);
    if Present(s, step.table, step.column) {
      var limit := faults(step.table, step.column);
      var at, op := Attempt(s, Drops(step), limit), DropColumn(step.table, step.column);
      DropsTake(s, step, limit);
      DropTakes(at, op);
      TakesTrans(s, at, Apply(at, op).schema);
      TakesKeeps(at, Apply(at, op).schema);
    }
  }

  /** An index that is neither the step's own nor over its column stays. */
  lemma RemoveKeepsIndex(s: Schema, step: ColumnStep, faults: Faults, x: IndexName)
    requires x in s.indexes && x != Own(step)
    requires step.table in s.tables ==> !Over(s.indexes[x], step)
    ensures x in Remove(s, step, true, faults).schema.indexes
  {
    hide Exec;
    var limit := faults(step.table, step.column);
    var ops := Cut(Drops(step), limit);
    if |ops| == 0 {
      assert ops == [] && Exec(s, ops) == Ok(s) by { ExecNothing(s); }
    } else if |ops| == 1 {
      assert ops == [ops[0]];
      ExecOne(s, ops[0]);
    } else {
      assert ops == [ops[0], ops[1]];
      ExecTwo(s, ops[0], ops[1]);
    }
    var at := Attempt(s, Drops(step), limit);
    assert x in at.indexes && at.indexes[x] == s.indexes[x] && at.tables.Keys == s.tables.Keys;
  }

  // ---------------------------------------------------------------- names that do no harm

  /** Every constraint of the step's name leaves from a managed column, and so goes with it anyway. */
  ghost predicate LinkDoomed(s: Schema, step: ColumnStep, managed: set<Column>) {
    step.link.Link? && step.table in s.tables ==>
      forall fk :: fk in s.tables[step.table].fks && fk.name == step.link.name ==> (step.table, fk.column) in managed
  }

  /** The removals before position `j` do not take the index away. */
  ghost predicate Outlasts(s: Schema, down: seq<ColumnStep>, j: nat, index: Index)
    requires j <= |down|
  {
    forall i :: 0 <= i < j ==> !(down[i].table in s.tables && Over(index, down[i]))
  }

  /** The index of the step's name is there, and still there when its turn comes. */
  ghost predicate Reached(s: Schema, down: seq<ColumnStep>, j: nat)
    requires j < |down|
  {
    Own(down[j]) in s.indexes && Outlasts(s, down, j, s.indexes[Own(down[j])])
  }

  /** Whatever has the names that the removal at `j` drops, and is reached by it, goes with a managed
      column anyway. */
  ghost predicate Harmless(s: Schema, down: seq<ColumnStep>, j: nat)
    requires j < |down|
  {
    var step, managed := down[j], Managed(down);
    step.table in s.tables ==>
      && (step.indexed && Own(step) in s.indexes ==> Doomed(s, s.indexes[Own(step)], managed))
      && ((step.indexed ==> Reached(s, down, j)) ==> LinkDoomed(s, step, managed))
  }

  ghost predicate AllHarmless(s: Schema, down: seq<ColumnStep>) {
    forall j :: 0 <= j < |down| ==> Harmless(s, down, j)
  }

  lemma IndexDropStrip(s: Schema, x: IndexName, managed: set<Column>)
    requires x in s.indexes ==> Doomed(s, s.indexes[x], managed)
    ensures Strip(Apply(s, DropIndex(x)).schema, managed) == Strip(s, managed)
  {
    var d := Apply(s, DropIndex(x)).schema;
    assert Strip(d, managed).indexes == Strip(s, managed).indexes;
  }

  lemma ConstraintDropStrip(s: Schema, step: ColumnStep, managed: set<Column>)
    requires step.link.Link? && LinkDoomed(s, step, managed)
    ensures Strip(Apply(s, DropConstraint(step.link.name, step.table)).schema, managed) == Strip(s, managed)
  {
    var d := Apply(s, DropConstraint(step.link.name, step.table)).schema;
    forall u | u in s.tables
      ensures StripTable(s.tables[u], Of(managed, u)) == StripTable(d.tables[u], Of(managed, u))
    {
    }
    assert Strip(s, managed).indexes == Strip(d, managed).indexes;
  }

  lemma DropsStrip(s: Schema, step: ColumnStep, limit: nat, managed: set<Column>)
    requires step.indexed && Own(step) in s.indexes ==> Doomed(s, s.indexes[Own(step)], managed)
    requires (step.indexed ==> Own(step) in s.indexes) ==> LinkDoomed(s, step, managed)
    ensures Strip(Attempt(s, Drops(step), limit), managed) == Strip(s, managed)
  {
    hide Exec, Strip, Doomed;
    var ops := Cut(Drops(step), limit);
    if |ops| == 0 {
      assert ops == [] && Exec(s, ops) == Ok(s) by { ExecNothing(s); }
    } else if |ops| == 1 {
      assert ops == [ops[0]];
      ExecOne(s, ops[0]);
      if step.indexed {
        IndexDropStrip(s, Own(step), managed);
      } else {
        ConstraintDropStrip(s, step, managed);
      }
    } else {
      assert ops == [ops[0], ops[1]];
      ExecTwo(s, ops[0], ops[1]);
      IndexDropStrip(s, Own(step), managed);
      if Own(step) in s.indexes {
        var at := Apply(s, ops[0]).schema;
        assert at.tables == s.tables;
        ConstraintDropStrip(at, step, managed);
      }
    }
  }

  // ---------------------------------------------------------------- the removals

  ghost predicate InPlace(u: Schema, down: seq<ColumnStep>) {
    forall i :: 0 <= i < |down| ==> Present(u, down[i].table, down[i].column) || down[i].table !in u.tables
  }

  /** Where the first `n` removals stand. */
  lemma StillInPlace(u: Schema, down: seq<ColumnStep>, n: nat, faults: Faults)
    requires StepsOk(down) && InPlace(u, down) && n < |down|
    ensures RemoveAll(u, down[..n], true, faults).Ok?
    ensures var at := RemoveAll(u, down[..n], true, faults).schema;
            && (Present(at, down[n].table, down[n].column) <==> down[n].table in u.tables)
            && at.tables.Keys == u.tables.Keys
    ensures RemoveAll(u, down[..n + 1], true, faults)
         == Remove(RemoveAll(u, down[..n], true, faults).schema, down[n], true, faults)
  {
    hide Remove, Columns, Managed, RemoveAll;
    PrefixOk(down, n);
    PrefixOk(down, n + 1);
    assert down[..n + 1][..n] == down[..n];
    StepsOkSnoc(down[..n + 1]);
    RemoveAllExactly(u, down[..n], faults);
    var at := RemoveAll(u, down[..n], true, faults).schema;
    MinusPresent(u, at, Managed(down[..n]), down[n].table, down[n].column);
    MinusKeys(u, at, Managed(down[..n]));
    RemoveSnoc(u, down, n, faults);
  }

  lemma RemoveSnoc(u: Schema, down: seq<ColumnStep>, n: nat, faults: Faults)
    requires n < |down| && RemoveAll(u, down[..n], true, faults).Ok?
    ensures RemoveAll(u, down[..n + 1], true, faults)
         == Remove(RemoveAll(u, down[..n], true, faults).schema, down[n], true, faults)
  {
    hide Remove;
    assert down[..n + 1][..n] == down[..n];
  }

  lemma PrefixOk(steps: seq<ColumnStep>, n: nat)
    requires StepsOk(steps) && n <= |steps|
    ensures StepsOk(steps[..n])
  {
    hide Apart;
  }

  lemma {:induction false} RemovePrefixStrips(u: Schema, down: seq<ColumnStep>, n: nat, faults: Faults)
    requires StepsOk(down) && InPlace(u, down) && AllHarmless(u, down) && n <= |down|
    ensures var d := RemoveAll(u, down[..n], true, faults).schema;
            && RemoveAll(u, down[..n], true, faults) == Ok(d)
            && Strip(d, Managed(down)) == Strip(u, Managed(down))
            && Takes(u, d)
            && forall i :: 0 <= i < n ==> NoTrace(d, down[i].table, down[i].column)
  {
    hide Strip, Remove, NoTrace, Managed, Takes, Harmless, StepsOk, InPlace;
    if n > 0 {
      RemovePrefixStrips(u, down, n - 1, faults);
      StillInPlace(u, down, n - 1, faults);
      RemoveStrips(u, RemoveAll(u, down[..n - 1], true, faults).schema, down, n - 1, faults);
    } else {
      assert down[..0] == [];
      TakesSelf(u);
    }
  }

  lemma RemoveStrips(u: Schema, at: Schema, down: seq<ColumnStep>, j: nat, faults: Faults)
    requires StepsOk(down) && j < |down| && Harmless(u, down, j) && Takes(u, at)
    requires forall i :: 0 <= i < j ==> NoTrace(at, down[i].table, down[i].column)
    requires Present(at, down[j].table, down[j].column) <==> down[j].table in u.tables
    ensures var d := Remove(at, down[j], true, faults).schema;
            && Remove(at, down[j], true, faults) == Ok(d)
            && Strip(d, Managed(down)) == Strip(at, Managed(down))
            && Takes(u, d)
            && forall i :: 0 <= i <= j ==> NoTrace(d, down[i].table, down[i].column)
  {
    var step := down[j];
    if step.table in u.tables {
      hide Strip, NoTrace, Managed, Takes, Harmless, Apply, Attempt, Drops;
      var limit, op := faults(step.table, step.column), DropColumn(step.table, step.column);
      HarmlessLater(u, at, down, j);
      DropsStrip(at, step, limit, Managed(down));
      DropsTake(at, step, limit);
      var cut := Attempt(at, Drops(step), limit);
      TakesKeeps(at, cut);
      InManaged(down, j);
      ColumnDroppedStrip(cut, step.table, step.column, Managed(down));
      DropColumnTraces(cut, op);
      DropTakes(cut, op);
      TakesTrans(at, cut, Apply(cut, op).schema);
      TakesTrans(u, at, Apply(cut, op).schema);
      hide Present, StepsOk;
      RemoveGoes(at, step, faults);
    } else {
      assert step.table !in at.tables;
    }
  }

  lemma RemoveGoes(s: Schema, step: ColumnStep, faults: Faults)
    requires Present(s, step.table, step.column) && step.column != KEY
    ensures Remove(s, step, true, faults)
         == Apply(Attempt(s, Drops(step), faults(step.table, step.column)), DropColumn(step.table, step.column))
    ensures Remove(s, step, true, faults).Ok?
  {
    hide Attempt, Drops, Apply, Columns;
    RemoveExactly(s, step, faults);
  }

  /** What was harmless at the start is harmless when its turn comes. */
  lemma HarmlessLater(u: Schema, at: Schema, down: seq<ColumnStep>, j: nat)
    requires j < |down| && Harmless(u, down, j) && Takes(u, at) && down[j].table in u.tables
    requires forall i :: 0 <= i < j ==> NoTrace(at, down[i].table, down[i].column)
    ensures var step, managed := down[j], Managed(down);
            && (step.indexed && Own(step) in at.indexes ==> Doomed(at, at.indexes[Own(step)], managed))
            && ((step.indexed ==> Own(step) in at.indexes) ==> LinkDoomed(at, step, managed))
  {
    hide Managed;
    var step := down[j];
    assert TableTakes(u.tables[step.table], at.tables[step.table]);
    if step.indexed && Own(step) in at.indexes {
      var index := u.indexes[Own(step)];
      forall i | 0 <= i < j ensures !(down[i].table in u.tables && Over(index, down[i])) {
        assert NoTrace(at, down[i].table, down[i].column);
      }
      assert Reached(u, down, j);
    }
  }

  /** With every managed column in place and no name that does harm, the removals strip the schema. */
  lemma RemoveAllStrips(u: Schema, down: seq<ColumnStep>, faults: Faults)
    requires StepsOk(down) && InPlace(u, down) && AllHarmless(u, down)
    ensures RemoveAll(u, down, true, faults) == Ok(Strip(u, Managed(down)))
  {
    hide Strip, RemoveAll, NoTrace, StepsOk, Takes, AllHarmless, InPlace;
    RemovePrefixStrips(u, down, |down|, faults);
    assert down[..|down|] == down;
    var d := RemoveAll(u, down, true, faults).schema;
    forall m | m in Managed(down) ensures NoTrace(d, m.0, m.1) {
      var i :| 0 <= i < |down| && m == (down[i].table, down[i].column);
    }
    StripIsIdentity(d, Managed(down));
  }

  // ---------------------------------------------------------------- and where names do harm

  lemma {:induction false} IndexOutlasts(u: Schema, down: seq<ColumnStep>, n: nat, faults: Faults, x: IndexName)
    requires StepsOk(down) && InPlace(u, down) && n <= |down|
    requires x in u.indexes && Outlasts(u, down, n, u.indexes[x]) && forall i :: 0 <= i < n ==> x != Own(down[i])
    ensures var d := RemoveAll(u, down[..n], true, faults).schema;
            Takes(u, d) && x in d.indexes && d.indexes[x] == u.indexes[x]
  {
    hide Remove, Takes, StepsOk, InPlace;
    if n > 0 {
      IndexOutlasts(u, down, n - 1, faults, x);
      StillInPlace(u, down, n - 1, faults);
      var at := RemoveAll(u, down[..n - 1], true, faults).schema;
      RemoveKeepsIndex(at, down[n - 1], faults, x);
      RemoveTakes(at, down[n - 1], faults);
      TakesTrans(u, at, Remove(at, down[n - 1], true, faults).schema);
      TakesIndex(u, Remove(at, down[n - 1], true, faults).schema, x);
    } else {
      assert down[..0] == [];
      TakesSelf(u);
    }
  }

  lemma TakesIndex(s: Schema, d: Schema, x: IndexName)
    requires Takes(s, d) && x in d.indexes
    ensures x in s.indexes && d.indexes[x] == s.indexes[x]
  {
  }

  /** Where nothing outside the schema interferes, every removal frees its first name, and its constraint
      name if it is reached. */
  lemma {:induction false} RemovalsFree(u: Schema, down: seq<ColumnStep>, n: nat, faults: Faults)
    requires StepsOk(down) && InPlace(u, down) && n <= |down| && forall t, c :: faults(t, c) > 1
    ensures var d := RemoveAll(u, down[..n], true, faults).schema;
            && Takes(u, d)
            && (forall j :: 0 <= j < n ==> NameFree(d, down[j]))
            && (forall j :: 0 <= j < n && (down[j].indexed ==> Reached(u, down, j)) ==> LinkNameFree(d, down[j]))
  {
    hide Remove, Takes, NameFree, LinkNameFree, InPlace, Outlasts;
    if n > 0 {
      RemovalsFree(u, down, n - 1, faults);
      StillInPlace(u, down, n - 1, faults);
      var step, at := down[n - 1], RemoveAll(u, down[..n - 1], true, faults).schema;
      var d := Remove(at, step, true, faults).schema;
      RemoveTakes(at, step, faults);
      TakesTrans(u, at, d);
      TakesKeeps(at, d);
      if step.table !in u.tables {
        AbsentIsFree(u, d, step);
      } else if Reached(u, down, n - 1) {
        forall i | 0 <= i < n - 1 ensures Own(step) != Own(down[i]) {
          assert Apart(down[i], down[n - 1]);
        }
        hide StepsOk;
        IndexOutlasts(u, down, n - 1, faults, Own(step));
      }
    } else {
      assert down[..0] == [];
      TakesSelf(u);
    }
  }

  lemma AbsentIsFree(s: Schema, d: Schema, step: ColumnStep)
    requires Takes(s, d) && step.table !in s.tables
    ensures NameFree(d, step) && LinkNameFree(d, step)
  {
  }

  /** A schema that the removals strip, with nothing interfering, has no name that does harm. */
  lemma StrippedIsHarmless(u: Schema, down: seq<ColumnStep>, faults: Faults)
    requires StepsOk(down) && InPlace(u, down) && forall t, c :: faults(t, c) > 1
    requires RemoveAll(u, down, true, faults) == Ok(Strip(u, Managed(down)))
    ensures AllHarmless(u, down)
  {
    hide RemoveAll, Managed, StepsOk, InPlace, NameFree, LinkNameFree, LinkDoomed, Doomed, Strip, Reached;
    var d := Strip(u, Managed(down));
    RemovalsFree(u, down, |down|, faults);
    assert down[..|down|] == down;
    forall j | 0 <= j < |down| ensures Harmless(u, down, j) {
      FreeStripIsDoomed(u, down[j], Managed(down));
    }
  }

  /** Stripping can free a name only by taking what bears it. */
  lemma FreeStripIsDoomed(u: Schema, step: ColumnStep, managed: set<Column>)
    ensures NameFree(Strip(u, managed), step) && step.table in u.tables && step.indexed && Own(step) in u.indexes ==>
              Doomed(u, u.indexes[Own(step)], managed)
    ensures LinkNameFree(Strip(u, managed), step) ==> LinkDoomed(u, step, managed)
  {
    var d := Strip(u, managed);
    if LinkNameFree(d, step) && step.link.Link? && step.table in u.tables {
      forall fk | fk in u.tables[step.table].fks && fk.name == step.link.name
        ensures (step.table, fk.column) in managed
      {
        assert fk !in d.tables[step.table].fks;
      }
    }
  }

  // ---------------------------------------------------------------- additions, then removals

  /** The additions change nothing about which names do harm. */
  lemma HarmlessThroughout(s: Schema, u: Schema, up: seq<ColumnStep>, down: seq<ColumnStep>, j: nat)
    requires Grown(s, u, up) && StepsOk(down) && (forall step :: step in up <==> step in down) && j < |down|
    ensures Harmless(s, down, j) <==> Harmless(u, down, j)
  {
    var step, managed := down[j], Managed(down);
    if step.table in s.tables {
      hide StepsOk, Managed, Doomed, FromLink, FromIndex, LinkDoomed, LinkNameFree, Outlasts;
      SameDoom(s, u, up, down, step);
      if Own(step) in s.indexes {
        ReachedThroughout(s, u, up, down, j);
      } else if Own(step) in u.indexes {
        NewIndexHarmless(s, u, up, down, j);
      }
    }
  }

  lemma SameDoom(s: Schema, u: Schema, up: seq<ColumnStep>, down: seq<ColumnStep>, step: ColumnStep)
    requires Grown(s, u, up) && (forall step :: step in up <==> step in down) && step.table in s.tables
    ensures LinkDoomed(s, step, Managed(down)) <==> LinkDoomed(u, step, Managed(down))
    ensures forall index :: Doomed(s, index, Managed(down)) <==> Doomed(u, index, Managed(down))
  {
    hide Managed;
    var t, managed := step.table, Managed(down);
    assert s.tables[t].fks <= u.tables[t].fks;
    if LinkDoomed(s, step, managed) && step.link.Link? {
      forall fk | fk in u.tables[t].fks && fk.name == step.link.name ensures (t, fk.column) in managed {
        if fk !in s.tables[t].fks {
          assert LinkedBy(up, t, fk);
          var own :| own in up && FromLink(own, t, fk);
          OneManaged(down, own);
        }
      }
    }
  }

  lemma OneManaged(steps: seq<ColumnStep>, step: ColumnStep)
    requires step in steps
    ensures (step.table, step.column) in Managed(steps)
  {
    var i :| 0 <= i < |steps| && steps[i] == step;
    InManaged(steps, i);
  }

  lemma ReachedThroughout(s: Schema, u: Schema, up: seq<ColumnStep>, down: seq<ColumnStep>, j: nat)
    requires Grown(s, u, up) && j < |down| && Own(down[j]) in s.indexes
    ensures Reached(s, down, j) <==> Reached(u, down, j)
  {
  }

  /** An index that the additions brought in is over a managed column, and its constraint's name was free. */
  lemma NewIndexHarmless(s: Schema, u: Schema, up: seq<ColumnStep>, down: seq<ColumnStep>, j: nat)
    requires Grown(s, u, up) && StepsOk(down) && (forall step :: step in up <==> step in down) && j < |down|
    requires Own(down[j]) in u.indexes && Own(down[j]) !in s.indexes
    ensures Doomed(u, u.indexes[Own(down[j])], Managed(down))
    ensures LinkDoomed(s, down[j], Managed(down))
  {
    hide Managed;
    var x := Own(down[j]);
    forall i | 0 <= i < |down| && i != j ensures Own(down[i]) != x {
      assert if i < j then Apart(down[i], down[j]) else Apart(down[j], down[i]);
    }
    assert IndexedBy(s, up, x, u.indexes[x]);
    var own :| own in up && FromIndex(own, x, u.indexes[x]) && own.table in s.tables && LinkNameFree(s, own);
    assert own in down;
    var i :| 0 <= i < |down| && down[i] == own;
    OneManaged(down, own);
    assert own.column in u.indexes[x].columns;
  }

  /** After the additions every managed column is in place. */
  lemma AfterAdd(s: Schema, up: seq<ColumnStep>, down: seq<ColumnStep>, guard: Guard, faults: Faults)
    requires StepsOk(up) && StepsOk(down) && (forall step :: step in up <==> step in down)
    requires guard.inspected && AddAll(s, up, guard, faults).Ok?
    ensures var u := AddAll(s, up, guard, faults).schema;
            && InPlace(u, down)
            && (AllHarmless(s, down) <==> AllHarmless(u, down))
            && Managed(up) == Managed(down)
            && Columns(u) == ColumnsPlus(s, Managed(up))
            && Strip(u, Managed(up)) == Strip(s, Managed(up))
  {
    hide AddAll, Columns, Managed, Strip, Harmless, Grown;
    SameManaged(up, down);
    var u := AddAll(s, up, guard, faults).schema;
    AddAllStrip(s, up, guard, faults, Managed(up));
    AddAllExactly(s, up, guard, faults);
    AddAllGrown(s, up, guard, faults);
    forall j | 0 <= j < |down| ensures Harmless(s, down, j) <==> Harmless(u, down, j) {
      HarmlessThroughout(s, u, up, down, j);
    }
    forall i | 0 <= i < |down|
      ensures Present(u, down[i].table, down[i].column) || down[i].table !in u.tables
    {
      InManaged(down, i);
      PlusPresent(s, u, Managed(up), down[i].table, down[i].column);
    }
  }

  /** Taking away what was just added leaves the start stripped of every managed column. */
  ghost predicate LeavesStripped(s: Schema, up: seq<ColumnStep>, down: seq<ColumnStep>, guard: Guard,
                                 going: Faults, coming: Faults)
  {
    && AddAll(s, up, guard, going).Ok?
    && RemoveAll(AddAll(s, up, guard, going).schema, down, true, coming) == Ok(Strip(s, Managed(up)))
  }

  /** It does so whatever fails inside the `try` blocks of either run, exactly when the names that the
      removals drop do no harm in the start. */
  lemma RoundTripExactly(s: Schema, up: seq<ColumnStep>, down: seq<ColumnStep>, guard: Guard)
    requires StepsOk(up) && StepsOk(down) && (forall step :: step in up <==> step in down) && guard.inspected
    requires forall i :: 0 <= i < |up| ==> Runs(s, up[i], guard)
    ensures (forall going, coming :: LeavesStripped(s, up, down, guard, going, coming)) <==> AllHarmless(s, down)
  {
    hide StepsOk, Runs, Managed, AddAll, RemoveAll, Strip, AllHarmless, InPlace, Columns;
    if AllHarmless(s, down) {
      forall going, coming ensures LeavesStripped(s, up, down, guard, going, coming) {
        AddAllExactly(s, up, guard, going);
        AddThenRemove(s, up, down, guard, going, coming);
      }
    }
    if forall going, coming :: LeavesStripped(s, up, down, guard, going, coming) {
      var calm: Faults := (t, c) => 2;
      assert LeavesStripped(s, up, down, guard, calm, calm);
      AfterAdd(s, up, down, guard, calm);
      StrippedIsHarmless(AddAll(s, up, guard, calm).schema, down, calm);
    }
  }

  lemma AddThenRemove(s: Schema, up: seq<ColumnStep>, down: seq<ColumnStep>, guard: Guard,
                      going: Faults, coming: Faults)
    requires StepsOk(up) && StepsOk(down) && (forall step :: step in up <==> step in down)
    requires AllHarmless(s, down) && guard.inspected && AddAll(s, up, guard, going).Ok?
    ensures LeavesStripped(s, up, down, guard, going, coming)
  {
    hide AddAll, RemoveAll, Strip, Managed, StepsOk, AllHarmless, InPlace, Columns;
    AfterAdd(s, up, down, guard, going);
    RemoveAllStrips(AddAll(s, up, guard, going).schema, down, coming);
  }

  // ---------------------------------------------------------------- when the pair is the identity

  /** Every nullable column is a column. */
  ghost predicate Tidy(s: Schema) {
    forall t :: t in s.tables ==> s.tables[t].nullable <= s.tables[t].columns
  }

  predicate NonePresent(s: Schema, managed: set<Column>) {
    forall m :: m in managed ==> !Present(s, m.0, m.1)
  }

  ghost predicate Restores(s: Schema, up: seq<ColumnStep>, down: seq<ColumnStep>, guard: Guard,
                           going: Faults, coming: Faults)
  {
    && AddAll(s, up, guard, going).Ok?
    && RemoveAll(AddAll(s, up, guard, going).schema, down, true, coming) == Ok(s)
  }

  /** The pair is the identity, whatever fails inside the `try` blocks, exactly when no managed column
      is present at the start and no dropped name is in use. */
  lemma IdentityExactly(s: Schema, up: seq<ColumnStep>, down: seq<ColumnStep>, guard: Guard)
    requires StepsOk(up) && StepsOk(down) && (forall step :: step in up <==> step in down)
    requires Sound(s) && Tidy(s) && guard.inspected
    requires forall i :: 0 <= i < |up| ==> Runs(s, up[i], guard)
    ensures (forall going, coming :: Restores(s, up, down, guard, going, coming))
            <==> NonePresent(s, Managed(up)) && forall step :: step in up ==> NameFree(s, step)
  {
    hide Sound, Tidy, StepsOk, Runs, Managed, NameFree, NonePresent, AddAll, RemoveAll, AllHarmless, InPlace, Columns,
         Strip;
    var managed := Managed(up);
    if NonePresent(s, managed) && forall step :: step in up ==> NameFree(s, step) {
      NoneStripped(s, managed);
      FreeIsHarmless(s, down);
      RoundTripExactly(s, up, down, guard);
      forall going, coming ensures Restores(s, up, down, guard, going, coming) {
        assert LeavesStripped(s, up, down, guard, going, coming);
      }
    }
    if forall going, coming :: Restores(s, up, down, guard, going, coming) {
      var calm: Faults := (t, c) => 2;
      assert Restores(s, up, down, guard, calm, calm);
      AfterAdd(s, up, down, guard, calm);
      RestoredIsFree(s, AddAll(s, up, guard, calm).schema, down, calm);
    }
  }

  lemma FreeIsHarmless(s: Schema, down: seq<ColumnStep>)
    requires forall step :: step in down ==> NameFree(s, step)
    ensures AllHarmless(s, down)
  {
    hide Managed;
    forall j | 0 <= j < |down| ensures Harmless(s, down, j) {
      assert down[j] in down && NameFree(s, down[j]);
    }
  }

  /** In a sound and tidy schema, an absent column leaves no trace. */
  lemma NoneStripped(s: Schema, managed: set<Column>)
    requires Sound(s) && Tidy(s) && NonePresent(s, managed)
    ensures Strip(s, managed) == s
  {
    hide Strip;
    forall m | m in managed ensures NoTrace(s, m.0, m.1) {
      assert !Present(s, m.0, m.1);
      if m.0 in s.tables {
        assert Linked(s, m.0, s.tables[m.0]);
      }
    }
    StripIsIdentity(s, managed);
  }

  /** When the removals lead back to the start, nothing of what they remove was there. */
  lemma RestoredIsFree(s: Schema, u: Schema, down: seq<ColumnStep>, faults: Faults)
    requires StepsOk(down) && InPlace(u, down) && Columns(u) == ColumnsPlus(s, Managed(down))
    requires RemoveAll(u, down, true, faults) == Ok(s) && forall t, c :: faults(t, c) > 1
    ensures NonePresent(s, Managed(down)) && forall step :: step in down ==> NameFree(s, step)
  {
    hide StepsOk, Managed, NameFree, RemoveAll, Columns, InPlace;
    RemoveAllExactly(u, down, faults);
    RemovalsFree(u, down, |down|, faults);
    assert down[..|down|] == down;
    forall m | m in Managed(down) ensures !Present(s, m.0, m.1) {
      MinusPresent(u, s, Managed(down), m.0, m.1);
    }
    forall step | step in down ensures NameFree(s, step) {
      var i :| 0 <= i < |down| && down[i] == step;
    }
  }
}
