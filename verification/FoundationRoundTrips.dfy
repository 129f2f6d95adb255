/** The inventory foundation revision down and up again. */
module FoundationRoundTrips {
  import opened SchemaModel
  import opened CreationScripts
  import opened GuardedColumns
  import opened ColumnTraces
  import opened GuardedMigrations
  import opened FoundationMigration

  // ---------------------------------------------------------------- neither table was there

  /** Where neither table was there, the downgrade takes exactly the two tables back; the added columns
      stay.  Upgrading again gives the schema of the first upgrade. */
  lemma FoundationReUpgrade(s: Schema, faults: Faults, again: Faults)
    requires Sound(s) && FoundationUpgrade(s, true, faults).Ok?
    requires PRODUCT_WAREHOUSES !in s.tables && INVENTORY_POLICIES !in s.tables
    ensures var up := FoundationUpgrade(s, true, faults).schema;
            var columns := AddAll(s, FoundationSteps(), Guard(true, false), faults);
            && columns.Ok? && Columns(columns.schema) == ColumnsPlus(s, FoundationColumns())
            && FoundationDowngrade(up) == columns
            && FoundationUpgrade(columns.schema, true, again) == Ok(up)
  {
    hide FoundationSteps, ProductWarehousesTable, InventoryPoliciesTable, AddAll, WithNew, Creatable, Columns, Managed,
         TableOk, Sound, Exec, CreateOps, Built, Ready, CreateAll, DropAll;
    var script := [ProductWarehousesTable(), InventoryPoliciesTable()];
    var c := AddAll(s, FoundationSteps(), Guard(true, false), faults).schema;
    FoundationUpgradeExactly(s, true, faults);
    PlusKeys(s, c, FoundationColumns());
    AddAllSound(s, FoundationSteps(), Guard(true, false), faults);
    ScriptOfTwo();
    ExecConcat(c, CreateOps(script[0]), CreateOps(script[1]));
    CreateAllExactly(c, script);
    DropAllRestores(c, script);
    ColumnsSettled(s, c, again);
  }

  lemma ScriptOfTwo()
    ensures var script := [ProductWarehousesTable(), InventoryPoliciesTable()];
            && ScriptOk(script)
            && CreateAll(script) == CreateOps(script[0]) + CreateOps(script[1])
            && DropAll(script) == FoundationDowngradeOps()
  {
    hide ProductWarehousesTable, InventoryPoliciesTable, TableOk, CreateOps;
    var a, b := ProductWarehousesTable(), InventoryPoliciesTable();
    assert [a, b][..1] == [a] && [a][..0] == [];
    assert CreateAll([a]) == CreateOps(a);
    assert DropAll([a]) == [DropTable(PRODUCT_WAREHOUSES)];
  }

  /** With all columns in place the column steps do nothing. */
  lemma ColumnsSettled(s: Schema, d: Schema, faults: Faults)
    requires Columns(d) == ColumnsPlus(s, FoundationColumns()) && ENHANCED <= s.tables.Keys
    ensures AddAll(d, FoundationSteps(), Guard(true, false), faults) == Ok(d)
  {
    hide FoundationSteps, Columns, Managed, AddAll, StepsOk;
    var steps := FoundationSteps();
    forall i | 0 <= i < |steps| ensures Present(d, steps[i].table, steps[i].column) {
      InManaged(steps, i);
      assert steps[i].table in ENHANCED;
      PlusPresent(s, d, FoundationColumns(), steps[i].table, steps[i].column);
    }
    AddAllSettled(d, steps, Guard(true, false), faults);
  }

  lemma {:induction false} AddAllSound(s: Schema, steps: seq<ColumnStep>, guard: Guard, faults: Faults)
    requires Sound(s)
    ensures Sound(AddAll(s, steps, guard, faults).schema)
  {
    if |steps| > 0 {
      hide Sound, Apply, Exec, Creates;
      var last := steps[|steps| - 1];
      AddAllSound(s, steps[..|steps| - 1], guard, faults);
      var at := AddAll(s, steps[..|steps| - 1], guard, faults).schema;
      var op := AddColumn(last.table, last.column, last.nullable);
      ApplySound(at, op);
      ExecSound(Apply(at, op).schema, Cut(Creates(last), faults(last.table, last.column)));
    }
  }

  const NEW_TABLES: set<TableName> := {PRODUCT_WAREHOUSES, INVENTORY_POLICIES}

  /** Only a table itself and the older of the two new ones may point to a new one: no table that stays
      does, and `product_warehouses` does not point to the table that is dropped before it. */
  ghost predicate Released(s: Schema) {
    forall t, fk :: t in s.tables && fk in s.tables[t].fks ==> MayPoint(t, fk)
  }

  predicate MayPoint(t: TableName, fk: ForeignKey) {
    && (fk.target == INVENTORY_POLICIES ==> t == INVENTORY_POLICIES)
    && (fk.target == PRODUCT_WAREHOUSES ==> t in NEW_TABLES)
  }

  /** The downgrade runs exactly when both tables are there and released, and takes them away with their
      indexes. */
  lemma FoundationDowngradeExactly(u: Schema)
    ensures FoundationDowngrade(u).Ok? <==> NEW_TABLES <= u.tables.Keys && Released(u)
    ensures FoundationDowngrade(u).Ok? ==>
              var d := FoundationDowngrade(u).schema;
              && d.tables == u.tables - NEW_TABLES
              && d.indexes == map x | x in u.indexes && u.indexes[x].table !in NEW_TABLES :: u.indexes[x]
  {
    hide Exec, Droppable, ProductWarehousesTable, InventoryPoliciesTable, ScriptOk, Released;
    var script := [ProductWarehousesTable(), InventoryPoliciesTable()];
    ScriptOfTwo();
    DropAllExactly(u, script);
    DroppableTwo(u, script);
    if FoundationDowngrade(u).Ok? {
      BothDropped(u);
    }
  }

  lemma DroppableTwo(u: Schema, script: seq<NewTable>)
    requires |script| == 2 && script[0].name == PRODUCT_WAREHOUSES && script[1].name == INVENTORY_POLICIES
    ensures Droppable(u, script) <==> NEW_TABLES <= u.tables.Keys && Released(u)
  {
    forall t ensures DroppedBefore(script, 0, t) <==> t == INVENTORY_POLICIES {
      assert script[1].name == INVENTORY_POLICIES;
    }
    assert forall t :: !DroppedBefore(script, 1, t);
    if Droppable(u, script) {
      assert script[0].name in u.tables && script[1].name in u.tables;
      forall t, fk | t in u.tables && fk in u.tables[t].fks ensures MayPoint(t, fk) {
        if fk.target == INVENTORY_POLICIES {
          assert fk.target == script[1].name;
        }
        if fk.target == PRODUCT_WAREHOUSES {
          assert fk.target == script[0].name;
        }
      }
    }
  }

  lemma BothDropped(u: Schema)
    requires FoundationDowngrade(u).Ok?
    ensures var d := FoundationDowngrade(u).schema;
            && d.tables == u.tables - NEW_TABLES
            && d.indexes == map x | x in u.indexes && u.indexes[x].table !in NEW_TABLES :: u.indexes[x]
  {
    hide Exec, Referenced;
    ExecTwo(u, DropTable(INVENTORY_POLICIES), DropTable(PRODUCT_WAREHOUSES));
    var a := Apply(u, DropTable(INVENTORY_POLICIES)).schema;
    assert a.tables - {PRODUCT_WAREHOUSES} == u.tables - NEW_TABLES;
  }

  predicate AsScripted(s: Schema, n: NewTable) {
    n.name in s.tables ==> s.tables[n.name].columns == n.definition.columns
  }

  /** What the start must hold for the table to be created once more: the keys it points to, and none of
      its index names on a table that stays. */
  ghost predicate Recreatable(s: Schema, n: NewTable) {
    && (forall fk :: fk in n.definition.fks ==> HasKey(s, fk.target))
    && (forall c :: c in n.indexed && Ix(n.name, c) in s.indexes ==> s.indexes[Ix(n.name, c)].table in NEW_TABLES)
  }

  /** How the result of the upgrade looks from the start. */
  ghost predicate UpgradeShape(s: Schema, u: Schema) {
    && u.tables.Keys == s.tables.Keys + NEW_TABLES
    && (forall t :: t in ENHANCED ==> (HasKey(u, t) <==> HasKey(s, t)))
    && LinksShape(s, u) && IndexesShape(s, u)
  }

  ghost predicate LinksShape(s: Schema, u: Schema) {
    && s.tables.Keys <= u.tables.Keys
    && (forall t, fk: ForeignKey :: t in s.tables && fk.target in NEW_TABLES ==>
          (fk in u.tables[t].fks <==> fk in s.tables[t].fks))
    && (forall t, fk :: t in u.tables && t !in s.tables && fk in u.tables[t].fks ==> fk.target !in NEW_TABLES)
  }

  ghost predicate IndexesShape(s: Schema, u: Schema) {
    && (forall x :: x in s.indexes ==> x in u.indexes && u.indexes[x] == s.indexes[x])
    && (forall x :: x in u.indexes && x !in s.indexes && x.Ix? && x.table in NEW_TABLES ==>
          u.indexes[x].table in NEW_TABLES)
  }

  /** One of the two tables is there already, or has been created with its indexes. */
  ghost predicate Created(a: Schema, d: Schema, n: NewTable, seen: bool) {
    TableAdded(a, d, n, seen) && IndexesAdded(a, d, n.name)
  }

  ghost predicate TableAdded(a: Schema, d: Schema, n: NewTable, seen: bool) {
    && d.tables.Keys == a.tables.Keys + {n.name}
    && (forall t :: t != n.name && t in a.tables ==> d.tables[t] == a.tables[t])
    && (if seen then n.name in a.tables && d.tables[n.name] == a.tables[n.name] else d.tables[n.name] == n.definition)
  }

  ghost predicate IndexesAdded(a: Schema, d: Schema, t: TableName) {
    && (forall x :: x in a.indexes ==> x in d.indexes && d.indexes[x] == a.indexes[x])
    && (forall x :: x in d.indexes && x !in a.indexes ==> d.indexes[x].table == t)
  }

  lemma CreatedShape(a: Schema, n: NewTable, seen: bool)
    requires if seen then n.name in a.tables else Creatable(a, n)
    ensures Created(a, WithNew(a, n, seen), n, seen)
  {
    hide IndexesFor, Linked;
    forall x ensures x in IndexesFor(n, |n.indexed|) ==> x !in a.indexes || seen {
      IndexesForKeys(n, |n.indexed|, x);
      assert n.indexed[..|n.indexed|] == n.indexed;
    }
    forall x | x in IndexesFor(n, |n.indexed|) ensures IndexesFor(n, |n.indexed|)[x].table == n.name {
      IndexesForKeys(n, |n.indexed|, x);
    }
  }

  lemma UpgradeShaped(s: Schema, faults: Faults)
    requires FoundationUpgrade(s, true, faults).Ok?
    ensures UpgradeShape(s, FoundationUpgrade(s, true, faults).schema)
  {
    hide FoundationSteps, ProductWarehousesTable, InventoryPoliciesTable, FoundationUpgrade, AddAll, WithNew, Creatable,
         Columns, Managed, TableOk, StepsOk, UpgradeShape;
    var first, second := ProductWarehousesTable(), InventoryPoliciesTable();
    FoundationUpgradeExactly(s, true, faults);
    ColumnsShaped(s, true, faults);
    var c := AddAll(s, FoundationSteps(), Guard(true, false), faults).schema;
    var seen, seen' := PRODUCT_WAREHOUSES in s.tables, INVENTORY_POLICIES in s.tables;
    CreatableAfterColumns(s, first, true, faults);
    CreatableAfterColumns(s, second, true, faults);
    OtherCreatable(c, first, seen, second);
    CreatedShape(c, first, seen);
    var a := WithNew(c, first, seen);
    CreatedShape(a, second, seen');
    ShapeFromParts(s, c, a, WithNew(a, second, seen'), first, second);
  }

  lemma ShapeFromParts(s: Schema, c: Schema, a: Schema, u: Schema, first: NewTable, second: NewTable)
    requires first.name == PRODUCT_WAREHOUSES && second.name == INVENTORY_POLICIES && ColumnsShape(s, c)
    requires forall fk :: fk in first.definition.fks || fk in second.definition.fks ==> fk.target in ENHANCED
    requires Created(c, a, first, PRODUCT_WAREHOUSES in s.tables)
    requires Created(a, u, second, INVENTORY_POLICIES in s.tables)
    ensures UpgradeShape(s, u)
  {
    hide LinksShape, IndexesShape, TablesShape, IndexesGrown, TableAdded, IndexesAdded, HasKey;
    KeysFromParts(s, c, a, u, first, second);
    LinksFromParts(s, c, a, u, first, second);
    IndexesFromParts(s, c, a, u);
  }

  lemma KeysFromParts(s: Schema, c: Schema, a: Schema, u: Schema, first: NewTable, second: NewTable)
    requires first.name == PRODUCT_WAREHOUSES && second.name == INVENTORY_POLICIES && TablesShape(s, c)
    requires TableAdded(c, a, first, PRODUCT_WAREHOUSES in s.tables)
    requires TableAdded(a, u, second, INVENTORY_POLICIES in s.tables)
    ensures u.tables.Keys == s.tables.Keys + NEW_TABLES
    ensures forall t :: t in ENHANCED ==> (HasKey(u, t) <==> HasKey(s, t))
  {
    forall t | t in ENHANCED ensures HasKey(u, t) <==> HasKey(s, t) {
      assert t != PRODUCT_WAREHOUSES && t != INVENTORY_POLICIES;
      assert HasKey(c, t) <==> HasKey(s, t);
    }
  }

  lemma LinksFromParts(s: Schema, c: Schema, a: Schema, u: Schema, first: NewTable, second: NewTable)
    requires first.name == PRODUCT_WAREHOUSES && second.name == INVENTORY_POLICIES && TablesShape(s, c)
    requires forall fk :: fk in first.definition.fks || fk in second.definition.fks ==> fk.target in ENHANCED
    requires TableAdded(c, a, first, PRODUCT_WAREHOUSES in s.tables)
    requires TableAdded(a, u, second, INVENTORY_POLICIES in s.tables)
    ensures LinksShape(s, u)
  {
    OldLinks(s, c, a, u, first, second);
    NewLinks(s, c, a, u, first, second);
  }

  lemma OldLinks(s: Schema, c: Schema, a: Schema, u: Schema, first: NewTable, second: NewTable)
    requires first.name == PRODUCT_WAREHOUSES && second.name == INVENTORY_POLICIES && TablesShape(s, c)
    requires TableAdded(c, a, first, PRODUCT_WAREHOUSES in s.tables)
    requires TableAdded(a, u, second, INVENTORY_POLICIES in s.tables)
    ensures s.tables.Keys <= u.tables.Keys
    ensures forall t, fk: ForeignKey :: t in s.tables && fk.target in NEW_TABLES ==>
              (fk in u.tables[t].fks <==> fk in s.tables[t].fks)
  {
    hide HasKey;
    assert EMPLOYEES !in NEW_TABLES;
    forall t | t in s.tables ensures t in u.tables && u.tables[t] == c.tables[t] {
      assert t in a.tables && a.tables[t] == c.tables[t];
    }
  }

  lemma NewLinks(s: Schema, c: Schema, a: Schema, u: Schema, first: NewTable, second: NewTable)
    requires first.name == PRODUCT_WAREHOUSES && second.name == INVENTORY_POLICIES && TablesShape(s, c)
    requires forall fk :: fk in first.definition.fks || fk in second.definition.fks ==> fk.target in ENHANCED
    requires TableAdded(c, a, first, PRODUCT_WAREHOUSES in s.tables)
    requires TableAdded(a, u, second, INVENTORY_POLICIES in s.tables)
    ensures forall t, fk :: t in u.tables && t !in s.tables && fk in u.tables[t].fks ==> fk.target !in NEW_TABLES
  {
    EnhancedStay();
    forall t | t in u.tables && t !in s.tables
      ensures u.tables[t] == first.definition || u.tables[t] == second.definition
    {
      NewTableIs(s, c, a, u, first, second, t);
    }
    hide TablesShape, TableAdded;
  }

  lemma EnhancedStay()
    ensures forall t :: t in ENHANCED ==> t !in NEW_TABLES
  {
  }

  lemma NewTableIs(s: Schema, c: Schema, a: Schema, u: Schema, first: NewTable, second: NewTable, t: TableName)
    requires first.name == PRODUCT_WAREHOUSES && second.name == INVENTORY_POLICIES && TablesShape(s, c)
    requires TableAdded(c, a, first, PRODUCT_WAREHOUSES in s.tables)
    requires TableAdded(a, u, second, INVENTORY_POLICIES in s.tables)
    requires t in u.tables && t !in s.tables
    ensures u.tables[t] == first.definition || u.tables[t] == second.definition
  {
    hide HasKey;
    if t != INVENTORY_POLICIES {
      assert t in a.tables && u.tables[t] == a.tables[t];
    }
  }

  lemma IndexesFromParts(s: Schema, c: Schema, a: Schema, u: Schema)
    requires IndexesGrown(s, c) && IndexesAdded(c, a, PRODUCT_WAREHOUSES) && IndexesAdded(a, u, INVENTORY_POLICIES)
    ensures IndexesShape(s, u)
  {
    assert forall t :: t in ENHANCED ==> t !in NEW_TABLES;
  }

  /** The whole of up, down and up again, decided from the start: the downgrade runs exactly when no table
      that stays points to the two that go; after it the second upgrade gets through exactly when the keys
      they need are there and their index names are not held by a table that stays; and it restores the
      columns of the first exactly when tables that were there already had the columns that the script
      gives them. */
  lemma FoundationReUpgradeExactly(s: Schema, faults: Faults, again: Faults)
    requires FoundationUpgrade(s, true, faults).Ok?
    ensures var up := FoundationUpgrade(s, true, faults).schema;
            && (FoundationDowngrade(up).Ok? <==> Released(s))
            && (Released(s) ==>
                  var second := FoundationUpgrade(FoundationDowngrade(up).schema, true, again);
                  && (second.Ok? <==>
                        Recreatable(s, ProductWarehousesTable()) && Recreatable(s, InventoryPoliciesTable()))
                  && (second.Ok? ==>
                        (Columns(second.schema) == Columns(up)
                         <==> AsScripted(s, ProductWarehousesTable()) && AsScripted(s, InventoryPoliciesTable()))))
  {
    hide FoundationSteps, ProductWarehousesTable, InventoryPoliciesTable, FoundationUpgrade, FoundationDowngrade,
         AddAll, Creatable, Recreatable, Released, UpgradeShape, Columns, Managed, TableOk, StepsOk, IndexesFor;
    var u := FoundationUpgrade(s, true, faults).schema;
    UpgradeShaped(s, faults);
    ReleasedThroughout(s, u);
    FoundationDowngradeExactly(u);
    if Released(s) {
      SecondUpgrade(s, faults, again);
    }
  }

  lemma ReleasedThroughout(s: Schema, u: Schema)
    requires UpgradeShape(s, u)
    ensures NEW_TABLES <= u.tables.Keys && (Released(u) <==> Released(s))
  {
    ReleasedByLinks(s, u);
    hide LinksShape, IndexesShape, HasKey, Released;
  }

  lemma ReleasedByLinks(s: Schema, u: Schema)
    requires LinksShape(s, u)
    ensures Released(u) <==> Released(s)
  {
    hide LinksShape;
    if Released(s) {
      forall t, fk | t in u.tables && fk in u.tables[t].fks ensures MayPoint(t, fk) {
        SameLink(s, u, t, fk);
      }
    }
    if Released(u) {
      forall t, fk | t in s.tables && fk in s.tables[t].fks ensures MayPoint(t, fk) {
        SameLink(s, u, t, fk);
      }
    }
  }

  lemma SameLink(s: Schema, u: Schema, t: TableName, fk: ForeignKey)
    requires LinksShape(s, u)
    ensures t in s.tables ==> t in u.tables
    ensures t in s.tables && fk.target in NEW_TABLES ==> (fk in u.tables[t].fks <==> fk in s.tables[t].fks)
    ensures t in u.tables && t !in s.tables && fk in u.tables[t].fks ==> fk.target !in NEW_TABLES
  {
  }

  /** After the downgrade the table can be created again exactly when the start allows it. */
  lemma CreatableAgain(s: Schema, u: Schema, d: Schema, n: NewTable)
    requires UpgradeShape(s, u) && TableOk(n) && n.name in NEW_TABLES
    requires forall fk :: fk in n.definition.fks ==> fk.target in ENHANCED
    requires d.tables == u.tables - NEW_TABLES
    requires d.indexes == map x | x in u.indexes && u.indexes[x].table !in NEW_TABLES :: u.indexes[x]
    ensures Creatable(d, n) <==> Recreatable(s, n)
  {
    forall t | t in ENHANCED ensures HasKey(d, t) <==> HasKey(s, t) {
      assert HasKey(u, t) <==> HasKey(s, t);
    }
    forall c ensures Ix(n.name, c) in d.indexes
        <==> Ix(n.name, c) in s.indexes && s.indexes[Ix(n.name, c)].table !in NEW_TABLES
    {
    }
  }

  lemma SecondUpgrade(s: Schema, faults: Faults, again: Faults)
    requires FoundationUpgrade(s, true, faults).Ok?
    requires FoundationDowngrade(FoundationUpgrade(s, true, faults).schema).Ok?
    ensures var up := FoundationUpgrade(s, true, faults).schema;
            var second := FoundationUpgrade(FoundationDowngrade(up).schema, true, again);
            && (second.Ok? <==>
                  Recreatable(s, ProductWarehousesTable()) && Recreatable(s, InventoryPoliciesTable()))
            && (second.Ok? ==>
                  (Columns(second.schema) == Columns(up)
                   <==> AsScripted(s, ProductWarehousesTable()) && AsScripted(s, InventoryPoliciesTable())))
  {
    hide FoundationSteps, ProductWarehousesTable, InventoryPoliciesTable, FoundationUpgrade, FoundationDowngrade,
         AddAll, Creatable, Recreatable, Released, UpgradeShape, Columns, Managed, TableOk, StepsOk, IndexesFor;
    var first, second := ProductWarehousesTable(), InventoryPoliciesTable();
    FoundationUpgradeExactly(s, true, faults);
    var c := AddAll(s, FoundationSteps(), Guard(true, false), faults).schema;
    var u := FoundationUpgrade(s, true, faults).schema;
    FoundationDowngradeExactly(u);
    var d := FoundationDowngrade(u).schema;
    UpgradeShaped(s, faults);
    CreatableAgain(s, u, d, first);
    CreatableAgain(s, u, d, second);
    StillThere(s, c, u, d);
    FoundationUpgradeExactly(d, true, again);
    ColumnsSettled(d, d, again);
    if FoundationUpgrade(d, true, again).Ok? {
      var v := FoundationUpgrade(d, true, again).schema;
      OldTablesKept(s, c);
      assert v.tables == d.tables[first.name := first.definition][second.name := second.definition];
      SameColumnsExactly(u, v, first, second);
    }
  }

  /** The downgrade leaves the managed columns of the four tables where they are. */
  lemma StillThere(s: Schema, c: Schema, u: Schema, d: Schema)
    requires ENHANCED <= s.tables.Keys && Columns(c) == ColumnsPlus(s, FoundationColumns())
    requires forall t :: t in ENHANCED && t in c.tables ==> t in u.tables && u.tables[t] == c.tables[t]
    requires d.tables == u.tables - {PRODUCT_WAREHOUSES, INVENTORY_POLICIES}
    ensures ENHANCED <= d.tables.Keys && Columns(d) == ColumnsPlus(d, FoundationColumns())
  {
    hide FoundationColumns, Columns;
    PlusKeys(s, c, FoundationColumns());
    ManagedEnhanced();
    forall m | m in FoundationColumns() && m.0 in d.tables ensures m.1 in d.tables[m.0].columns {
      PlusPresent(s, c, FoundationColumns(), m.0, m.1);
    }
    NothingAdded(d, FoundationColumns());
  }

  lemma ManagedEnhanced()
    ensures forall m :: m in FoundationColumns() ==> m.0 in ENHANCED
  {
    hide FoundationSteps, StepsOk;
    forall m | m in FoundationColumns() ensures m.0 in ENHANCED {
      var i :| 0 <= i < |FoundationSteps()| && m == (FoundationSteps()[i].table, FoundationSteps()[i].column);
      assert FoundationSteps()[i].table in ENHANCED;
    }
  }

  /** The column steps leave the columns of every other table as they were. */
  lemma OldTablesKept(s: Schema, c: Schema)
    requires Columns(c) == ColumnsPlus(s, FoundationColumns())
    ensures forall t :: t !in ENHANCED && t in s.tables ==> t in c.tables && c.tables[t].columns == s.tables[t].columns
  {
    hide FoundationColumns, Columns;
    ManagedEnhanced();
    forall t | t !in ENHANCED && t in s.tables ensures t in c.tables && c.tables[t].columns == s.tables[t].columns {
      forall x ensures x in s.tables[t].columns <==> Present(c, t, x) {
        PlusPresent(s, c, FoundationColumns(), t, x);
        assert (t, x).0 == t;
      }
      PlusPresent(s, c, FoundationColumns(), t, KEY);
    }
  }

  lemma SameColumnsExactly(u: Schema, v: Schema, first: NewTable, second: NewTable)
    requires first.name != second.name && first.name in u.tables && second.name in u.tables
    requires v.tables == (u.tables - {first.name, second.name})
                         [first.name := first.definition][second.name := second.definition]
    ensures Columns(v) == Columns(u)
            <==> && u.tables[first.name].columns == first.definition.columns
                 && u.tables[second.name].columns == second.definition.columns
  {
    assert Columns(u).Keys == u.tables.Keys && Columns(v).Keys == v.tables.Keys;
    assert v.tables.Keys == u.tables.Keys;
    assert Columns(u)[first.name] == u.tables[first.name].columns;
    assert Columns(v)[first.name] == first.definition.columns;
    assert Columns(u)[second.name] == u.tables[second.name].columns;
    assert Columns(v)[second.name] == second.definition.columns;
    forall t | t in u.tables && t != first.name && t != second.name ensures Columns(v)[t] == Columns(u)[t] {}
  }
}
