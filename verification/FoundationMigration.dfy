/** The inventory foundation revision (v0.6.0): guarded columns on four tables, then two guarded tables. */
module FoundationMigration {
  import opened SchemaModel
  import opened CreationScripts
  import opened GuardedColumns
  import opened ColumnAdditions
  import opened ColumnRoundTrips
  import opened ColumnScripts
  import opened ColumnTraces
  import opened GuardedMigrations
  import opened SchemaGrowth

  // ---------------------------------------------------------------- the script

  /** The only table that the columns of the revision point to. */
  predicate LinksAway(steps: seq<ColumnStep>) {
    forall i :: 0 <= i < |steps| && steps[i].link.Link? ==> steps[i].link.target == EMPLOYEES
  }

  function UnitFoundation(): (steps: seq<ColumnStep>)
    ensures BlockOk(UNIT_OF_MEASURES, steps)
  {
    [Indexed(UNIT_OF_MEASURES, "code", true)]
  }

  function WarehouseFoundation(): (steps: seq<ColumnStep>)
    ensures BlockOk(WAREHOUSES, steps)
  {
    [Plain(WAREHOUSES, "description", true), Indexed(WAREHOUSES, "warehouse_type", false),
     Plain(WAREHOUSES, "address_line_1", true), Plain(WAREHOUSES, "address_line_2", true),
     Plain(WAREHOUSES, "city", true), Plain(WAREHOUSES, "state", true), Plain(WAREHOUSES, "country", true),
     Plain(WAREHOUSES, "postal_code", true), Plain(WAREHOUSES, "timezone", false),
     ColumnStep(WAREHOUSES, "manager_employee_id", true,
                Link("fk_warehouses_manager_employee_id_employees", EMPLOYEES), true)]
  }

  function ProductFoundation(): (steps: seq<ColumnStep>)
    ensures BlockOk(PRODUCTS, steps)
  {
    [Indexed(PRODUCTS, "model_number", true), Indexed(PRODUCTS, "is_active", false),
     Indexed(PRODUCTS, "is_stockable", false), Plain(PRODUCTS, "is_sellable", false),
     Plain(PRODUCTS, "is_purchasable", false), Plain(PRODUCTS, "reorder_level", true),
     Plain(PRODUCTS, "reorder_quantity", true), Plain(PRODUCTS, "minimum_stock", true),
     Plain(PRODUCTS, "maximum_stock", true), Plain(PRODUCTS, "lead_time_days", false),
     Plain(PRODUCTS, "default_unit_price", true), Plain(PRODUCTS, "metadata_json", true)]
  }

  function LocationFoundation(): (steps: seq<ColumnStep>)
    ensures BlockOk(STORAGE_LOCATIONS, steps)
  {
    [Plain(STORAGE_LOCATIONS, "description", true)]
  }

  const ENHANCED: set<TableName> := {UNIT_OF_MEASURES, WAREHOUSES, STORAGE_LOCATIONS, PRODUCTS}

  function FoundationSteps(): (steps: seq<ColumnStep>)
    ensures StepsOk(steps)
    ensures forall t :: t in ENHANCED <==> exists i :: 0 <= i < |steps| && steps[i].table == t
  {
    var a, b, c, d := UnitFoundation(), WarehouseFoundation(), LocationFoundation(), ProductFoundation();
    assert StepsOk(a + b + c + d) by {
      hide UnitFoundation, WarehouseFoundation, LocationFoundation, ProductFoundation, StepsOk;
      BlocksApart(a, b);
      BlocksApart(a + b, c);
      BlocksApart(a + b + c, d);
    }
    assert |a| > 0 && |b| > 0 && |c| > 0 && |d| > 0;
    assert (a + b + c + d)[0].table == UNIT_OF_MEASURES;
    assert (a + b + c + d)[|a|].table == WAREHOUSES;
    assert (a + b + c + d)[|a + b|].table == STORAGE_LOCATIONS;
    assert (a + b + c + d)[|a + b + c|].table == PRODUCTS;
    a + b + c + d
  }

  function ProductWarehousesIndexed(): (columns: seq<string>)
    ensures NoRepeats(columns)
  {
    ["id", "is_active", "preferred_location_id", "product_id", "warehouse_id"]
  }

  function ProductWarehousesTable(): (n: NewTable)
    ensures TableOk(n) && n.name == PRODUCT_WAREHOUSES
    ensures forall fk :: fk in n.definition.fks ==> fk.target in ENHANCED
  {
    NewTable(PRODUCT_WAREHOUSES,
      Define({"is_active", "created_at", "updated_at"},
             {"reorder_level", "reorder_quantity", "minimum_stock", "maximum_stock", "safety_stock"},
             {References("product_id", PRODUCTS), References("warehouse_id", WAREHOUSES)},
             {References("preferred_location_id", STORAGE_LOCATIONS)}),
      ProductWarehousesIndexed())
  }

  function InventoryPoliciesIndexed(): (columns: seq<string>)
    ensures NoRepeats(columns)
  {
    ["id", "is_active", "warehouse_id"]
  }

  function InventoryPoliciesTable(): (n: NewTable)
    ensures TableOk(n) && n.name == INVENTORY_POLICIES
    ensures forall fk :: fk in n.definition.fks ==> fk.target in ENHANCED
  {
    NewTable(INVENTORY_POLICIES,
      Define({"valuation_method", "costing_method", "negative_stock_allowed", "default_reorder_strategy",
              "default_reservation_behavior", "low_stock_alert_enabled", "is_active", "created_at", "updated_at"},
             {},
             {},
             {References("warehouse_id", WAREHOUSES)}),
      InventoryPoliciesIndexed())
  }

  function CreateMissing(s: Schema, n: NewTable, seen: bool): Outcome {
    if seen then Ok(s) else Exec(s, CreateOps(n))
  }

  /** The two tables are looked up in the list of tables that was read at the start. */
  function FoundationUpgrade(s: Schema, inspected: bool, faults: Faults): Outcome {
    match AddAll(s, FoundationSteps(), Guard(inspected, false), faults)
    case Refused(at) => Refused(at)
    case Ok(at) =>
      match CreateMissing(at, ProductWarehousesTable(), inspected && PRODUCT_WAREHOUSES in s.tables)
      case Refused(at) => Refused(at)
      case Ok(at) => CreateMissing(at, InventoryPoliciesTable(), inspected && INVENTORY_POLICIES in s.tables)
  }

  function FoundationDowngradeOps(): seq<Op> {
    [DropTable(INVENTORY_POLICIES), DropTable(PRODUCT_WAREHOUSES)]
  }

  /** The downgrade drops the two tables and leaves the columns. */
  function FoundationDowngrade(s: Schema): Outcome {
    Exec(s, FoundationDowngradeOps())
  }

  method UpgradeFoundation(db: Connection, inspected: bool, faults: Faults) returns (ok: bool)
    modifies db
    ensures (if ok then Ok(db.schema) else Refused(db.schema)) == FoundationUpgrade(old(db.schema), inspected, faults)
    ensures ok ==> FoundationEnlarged(old(db.schema), db.schema, inspected, faults)
    ensures Sound(old(db.schema)) ==> Sound(db.schema)
  {
    hide FoundationSteps, ProductWarehousesTable, InventoryPoliciesTable, Exec, Sound, AddAll, FoundationEnlarged;
    FoundationUpgradeMakes(db.schema, inspected, faults);
    var tables := if inspected then db.schema.tables.Keys else {};
    ok := AddColumns(db, FoundationSteps(), Guard(inspected, false), faults);
    if ok && PRODUCT_WAREHOUSES !in tables {
      ok := db.Migrate(CreateOps(ProductWarehousesTable()));
    }
    if ok && INVENTORY_POLICIES !in tables {
      ok := db.Migrate(CreateOps(InventoryPoliciesTable()));
    }
  }

  method DowngradeFoundation(db: Connection) returns (ok: bool)
    modifies db
    ensures (if ok then Ok(db.schema) else Refused(db.schema)) == FoundationDowngrade(old(db.schema))
    // the policies go first, so that nothing has happened when they cannot be dropped
    ensures INVENTORY_POLICIES !in old(db.schema).tables || Referenced(old(db.schema), INVENTORY_POLICIES) ==>
              !ok && db.schema == old(db.schema)
    ensures Sound(old(db.schema)) ==> Sound(db.schema)
  {
    hide Exec, Sound;
    ExecTwo(db.schema, DropTable(INVENTORY_POLICIES), DropTable(PRODUCT_WAREHOUSES));
    ok := db.Migrate(FoundationDowngradeOps());
  }

  // ---------------------------------------------------------------- when it runs

  function FoundationColumns(): set<Column> {
    Managed(FoundationSteps())
  }

  /** The table and its indexes can be created as the schema stands. */
  ghost predicate Creatable(s: Schema, n: NewTable) {
    && n.name !in s.tables && Linked(s, n.name, n.definition)
    && forall c :: c in n.indexed ==> Ix(n.name, c) !in s.indexes
  }

  lemma BlocksLinkAway()
    ensures LinksAway(UnitFoundation()) && LinksAway(WarehouseFoundation())
    ensures LinksAway(LocationFoundation()) && LinksAway(ProductFoundation())
  {
    hide BlockOk, StepsOk;
  }

  lemma StepsAreEnhanced()
    ensures forall step :: step in FoundationSteps() ==>
              step.table in ENHANCED && (step.link.Link? ==> step.link.target == EMPLOYEES)
  {
    hide StepsOk, UnitFoundation, WarehouseFoundation, LocationFoundation, ProductFoundation;
    BlocksLinkAway();
  }

  /** What the column steps leave of the start: no key, no index and no constraint of another table is
      touched. */
  ghost predicate ColumnsShape(s: Schema, c: Schema) {
    TablesShape(s, c) && IndexesGrown(s, c)
  }

  ghost predicate TablesShape(s: Schema, c: Schema) {
    && c.tables.Keys == s.tables.Keys
    && (forall t :: HasKey(c, t) <==> HasKey(s, t))
    && (forall t, fk: ForeignKey :: t in s.tables && fk.target != EMPLOYEES ==>
          (fk in c.tables[t].fks <==> fk in s.tables[t].fks))
  }

  ghost predicate IndexesGrown(s: Schema, c: Schema) {
    && (forall x :: x in s.indexes ==> x in c.indexes && c.indexes[x] == s.indexes[x])
    && (forall x :: x in c.indexes && x !in s.indexes ==> x.Ix? && x.table in ENHANCED)
  }

  lemma ColumnsShaped(s: Schema, inspected: bool, faults: Faults)
    requires AddAll(s, FoundationSteps(), Guard(inspected, false), faults).Ok?
    ensures ColumnsShape(s, AddAll(s, FoundationSteps(), Guard(inspected, false), faults).schema)
  {
    hide FoundationSteps, AddAll, Columns, Managed, StepsOk, Grown, HasKey, ColumnsPlus, IndexesGrown;
    var c := AddAll(s, FoundationSteps(), Guard(inspected, false), faults).schema;
    AddAllExactly(s, FoundationSteps(), Guard(inspected, false), faults);
    AddAllGrown(s, FoundationSteps(), Guard(inspected, false), faults);
    forall t ensures HasKey(c, t) <==> HasKey(s, t) {
      SameKey(s, c, t);
    }
    GrownAway(s, c);
  }

  lemma SameKey(s: Schema, c: Schema, t: TableName)
    requires Columns(c) == ColumnsPlus(s, FoundationColumns())
    ensures HasKey(c, t) <==> HasKey(s, t)
  {
    hide FoundationSteps, Managed, Columns, ColumnsPlus, StepsOk;
    PlusPresent(s, c, FoundationColumns(), t, KEY);
    if (t, KEY) in FoundationColumns() {
      NoKeyManaged(FoundationSteps(), (t, KEY));
    }
  }

  lemma GrownAway(s: Schema, c: Schema)
    requires Grown(s, c, FoundationSteps())
    ensures c.tables.Keys == s.tables.Keys
    ensures forall t, fk: ForeignKey :: t in s.tables && fk.target != EMPLOYEES ==>
              (fk in c.tables[t].fks <==> fk in s.tables[t].fks)
    ensures IndexesGrown(s, c)
  {
    hide FoundationSteps, StepsOk;
    StepsAreEnhanced();
    forall t, fk | t in s.tables && fk in c.tables[t].fks && fk !in s.tables[t].fks ensures fk.target == EMPLOYEES {
      assert LinkedBy(FoundationSteps(), t, fk);
    }
    forall t, fk: ForeignKey | t in s.tables && fk.target != EMPLOYEES
      ensures fk in c.tables[t].fks <==> fk in s.tables[t].fks
    {
      assert s.tables[t].fks <= c.tables[t].fks;
    }
    forall x | x in c.indexes && x !in s.indexes ensures x.Ix? && x.table in ENHANCED {
      assert IndexedBy(s, FoundationSteps(), x, c.indexes[x]);
    }
  }

  /** The column steps do not change whether a table of the revision can be created. */
  lemma CreatableAfterColumns(s: Schema, n: NewTable, inspected: bool, faults: Faults)
    requires n.name !in ENHANCED && AddAll(s, FoundationSteps(), Guard(inspected, false), faults).Ok?
    ensures Creatable(AddAll(s, FoundationSteps(), Guard(inspected, false), faults).schema, n) <==> Creatable(s, n)
  {
    hide FoundationSteps, AddAll;
    ColumnsShaped(s, inspected, faults);
  }

  function WithNew(s: Schema, n: NewTable, seen: bool): Schema {
    if seen then s else Schema(s.tables[n.name := n.definition], s.indexes + IndexesFor(n, |n.indexed|))
  }

  lemma CreateMissingExactly(s: Schema, n: NewTable, seen: bool)
    requires TableOk(n)
    ensures CreateMissing(s, n, seen).Ok? <==> seen || Creatable(s, n)
    ensures CreateMissing(s, n, seen).Ok? ==> CreateMissing(s, n, seen) == Ok(WithNew(s, n, seen))
  {
    hide Exec, CreateOps, IndexesFor, Linked;
    TableCreated(s, n);
  }

  lemma OtherCreatable(s: Schema, m: NewTable, seen: bool, n: NewTable)
    requires m.name != n.name && (forall fk :: fk in n.definition.fks ==> fk.target != m.name)
    ensures Creatable(WithNew(s, m, seen), n) <==> Creatable(s, n)
  {
    hide IndexesFor;
    var d := WithNew(s, m, seen);
    forall c | c in n.indexed ensures Ix(n.name, c) in d.indexes <==> Ix(n.name, c) in s.indexes {
      IndexesForKeys(m, |m.indexed|, Ix(n.name, c));
    }
    forall t | t != m.name ensures HasKey(d, t) <==> HasKey(s, t) {}
    if n.name != m.name {
      assert Linked(d, n.name, n.definition) <==> Linked(s, n.name, n.definition);
    }
  }

  /** A table of the revision is there already, and has been seen, or can be created. */
  ghost predicate Provided(s: Schema, n: NewTable, inspected: bool) {
    (inspected && n.name in s.tables) || Creatable(s, n)
  }

  /** Exactly when the upgrade gets through, and the schema it ends in: only the column steps can leave
      anything to chance. */
  lemma FoundationUpgradeExactly(s: Schema, inspected: bool, faults: Faults)
    ensures FoundationUpgrade(s, inspected, faults).Ok?
            <==> && ENHANCED <= s.tables.Keys && (inspected || NonePresent(s, FoundationColumns()))
                 && Provided(s, ProductWarehousesTable(), inspected)
                 && Provided(s, InventoryPoliciesTable(), inspected)
    ensures FoundationUpgrade(s, inspected, faults).Ok? ==>
              var columns := AddAll(s, FoundationSteps(), Guard(inspected, false), faults);
              && columns.Ok? && Columns(columns.schema) == ColumnsPlus(s, FoundationColumns())
              && FoundationUpgrade(s, inspected, faults)
                 == Ok(WithNew(WithNew(columns.schema, ProductWarehousesTable(),
                                       inspected && PRODUCT_WAREHOUSES in s.tables),
                               InventoryPoliciesTable(), inspected && INVENTORY_POLICIES in s.tables))
  {
    hide FoundationSteps, ProductWarehousesTable, InventoryPoliciesTable, AddAll, CreateMissing, WithNew, Creatable,
         Columns, Managed, TableOk, Linked, StepsOk;
    var first, second := ProductWarehousesTable(), InventoryPoliciesTable();
    var columns := AddAll(s, FoundationSteps(), Guard(inspected, false), faults);
    ColumnStepsExactly(s, inspected, faults);
    if columns.Ok? {
      var seen := inspected && PRODUCT_WAREHOUSES in s.tables;
      CreatableAfterColumns(s, first, inspected, faults);
      CreatableAfterColumns(s, second, inspected, faults);
      CreateMissingExactly(columns.schema, first, seen);
      OtherCreatable(columns.schema, first, seen, second);
      CreateMissingExactly(WithNew(columns.schema, first, seen), second, inspected && INVENTORY_POLICIES in s.tables);
    }
  }

  /** The start with what the column steps add, and then the tables of the revision that were not seen. */
  ghost predicate FoundationEnlarged(s: Schema, u: Schema, inspected: bool, faults: Faults) {
    exists c: Schema :: Enlarged(s, c, FoundationSteps(), faults)
      && u == WithNew(WithNew(c, ProductWarehousesTable(), inspected && PRODUCT_WAREHOUSES in s.tables),
                      InventoryPoliciesTable(), inspected && INVENTORY_POLICIES in s.tables)
  }

  lemma FoundationUpgradeMakes(s: Schema, inspected: bool, faults: Faults)
    ensures FoundationUpgrade(s, inspected, faults).Ok? ==>
              FoundationEnlarged(s, FoundationUpgrade(s, inspected, faults).schema, inspected, faults)
  {
    hide FoundationSteps, ProductWarehousesTable, InventoryPoliciesTable, FoundationUpgrade, AddAll, WithNew, Enlarged,
         Columns, Managed, Creatable;
    FoundationUpgradeExactly(s, inspected, faults);
    if FoundationUpgrade(s, inspected, faults).Ok? {
      AddAllMakes(s, FoundationSteps(), Guard(inspected, false), faults);
    }
  }

  lemma ColumnStepsExactly(s: Schema, inspected: bool, faults: Faults)
    ensures var columns := AddAll(s, FoundationSteps(), Guard(inspected, false), faults);
            && (columns.Ok? <==> ENHANCED <= s.tables.Keys && (inspected || NonePresent(s, FoundationColumns())))
            && (columns.Ok? ==> Columns(columns.schema) == ColumnsPlus(s, FoundationColumns()))
  {
    hide FoundationSteps, AddAll, Columns, StepsOk;
    var steps, guard := FoundationSteps(), Guard(inspected, false);
    AddAllExactly(s, steps, guard, faults);
    if forall i :: 0 <= i < |steps| ==> Runs(s, steps[i], guard) {
      forall t | t in ENHANCED ensures t in s.tables {
        var i :| 0 <= i < |steps| && steps[i].table == t;
        assert Runs(s, steps[i], guard);
      }
      if !inspected {
        forall m | m in FoundationColumns() ensures !Present(s, m.0, m.1) {
          var i :| 0 <= i < |steps| && m == (steps[i].table, steps[i].column);
          assert Runs(s, steps[i], guard);
        }
      }
    }
    if ENHANCED <= s.tables.Keys && (inspected || NonePresent(s, FoundationColumns())) {
      forall i | 0 <= i < |steps| ensures Runs(s, steps[i], guard) {
        assert steps[i].table in ENHANCED;
        InManaged(steps, i);
        assert !inspected ==> !Present(s, (steps[i].table, steps[i].column).0, (steps[i].table, steps[i].column).1);
      }
    }
  }
}
