/** For the finance and the foundation revisions a concrete schema from which they run, and, where the downgrade
    does not lead back, one on which that can be seen: the seven bare tables for finance; the four bare tables
    of the inventory foundation; and an older `product_warehouses` beside them.  The ledger with a required
    transaction type is beside the ledger revision itself.  Bare tables have their keys and nothing else. */
module ConcreteStarts {
  import opened SchemaModel
  import opened CreationScripts
  import opened FinanceTables
  import opened FinanceMigrations
  import opened GuardedColumns
  import opened FoundationMigration
  import opened FoundationRoundTrips

  // ---------------------------------------------------------------- finance

  const FINANCE_EXTERNAL: set<TableName> :=
    {DEPARTMENTS, USERS, CUSTOMERS, SALES_ORDERS, PRODUCTS, SUPPLIERS, PURCHASE_ORDERS}

  /** Both finance upgrades run on the seven bare tables that they point to. */
  lemma FinanceStart()
    ensures Sound(Bare(FINANCE_EXTERNAL)) && Startable(Bare(FINANCE_EXTERNAL))
    ensures Exec(Bare(FINANCE_EXTERNAL), CoreUpgrade() + OperationsUpgrade()).Ok?
  {
    hide Exec, CoreUpgrade, OperationsUpgrade, FinanceScript;
    BareSound(FINANCE_EXTERNAL);
    UpgradesRunExactly(Bare(FINANCE_EXTERNAL));
  }

  // ---------------------------------------------------------------- inventory foundation

  /** What the revision asks of a schema without indexes whose tables point nowhere unexpected. */
  lemma FoundationRuns(s: Schema, faults: Faults)
    requires (forall t :: t in ENHANCED ==> HasKey(s, t)) && s.indexes == map[] && INVENTORY_POLICIES !in s.tables
    requires forall t, fk :: t in s.tables && fk in s.tables[t].fks ==> fk.target !in NEW_TABLES
    ensures FoundationUpgrade(s, true, faults).Ok?
    ensures Released(s) && Recreatable(s, ProductWarehousesTable()) && Recreatable(s, InventoryPoliciesTable())
  {
    hide FoundationUpgrade, FoundationSteps, AddAll, WithNew, ProductWarehousesTable, InventoryPoliciesTable, Columns,
         StepsOk;
    FoundationUpgradeExactly(s, true, faults);
  }

  /** On the four bare tables it runs up, down and up again and ends where it first was. */
  lemma FoundationStart(faults: Faults, again: Faults)
    ensures var s := Bare(ENHANCED);
            && Sound(s) && PRODUCT_WAREHOUSES !in s.tables && INVENTORY_POLICIES !in s.tables
            && FoundationUpgrade(s, true, faults).Ok?
            && var up := FoundationUpgrade(s, true, faults);
            && FoundationDowngrade(up.schema).Ok?
            && FoundationUpgrade(FoundationDowngrade(up.schema).schema, true, again) == up
  {
    hide FoundationUpgrade, FoundationDowngrade, Sound, AddAll, FoundationSteps, Columns, Released, Recreatable,
         ProductWarehousesTable, InventoryPoliciesTable, FoundationColumns, ColumnsPlus, TableOk;
    BareSound(ENHANCED);
    FoundationRuns(Bare(ENHANCED), faults);
    FoundationReUpgrade(Bare(ENHANCED), faults, again);
  }

  /** An older `product_warehouses` with one more column than the script gives it. */
  function OlderStart(): Schema {
    var definition := ProductWarehousesTable().definition;
    WithTable(Bare(ENHANCED), PRODUCT_WAREHOUSES, definition.(columns := definition.columns + {"legacy"}))
  }

  /** From there all three runs get through, and the column is lost. */
  lemma OlderTableIsReplaced(faults: Faults, again: Faults)
    ensures var s := OlderStart();
            && Sound(s) && FoundationUpgrade(s, true, faults).Ok?
            && var up := FoundationUpgrade(s, true, faults).schema;
            && FoundationDowngrade(up).Ok?
            && var second := FoundationUpgrade(FoundationDowngrade(up).schema, true, again);
            && second.Ok? && Columns(second.schema) != Columns(up)
  {
    hide FoundationUpgrade, FoundationDowngrade, AddAll, FoundationSteps, Columns, ProductWarehousesTable, TableOk,
         InventoryPoliciesTable, Released, Recreatable;
    BareSound(ENHANCED);
    NoLegacyColumn();
    var s := OlderStart();
    var definition := s.tables[PRODUCT_WAREHOUSES];
    assert Linked(Bare(ENHANCED), PRODUCT_WAREHOUSES, definition) by {
      hide Sound;
      LinksKept();
    }
    TableReplacedSound(Bare(ENHANCED), PRODUCT_WAREHOUSES, definition);
    FoundationRuns(s, faults);
    FoundationReUpgradeExactly(s, faults, again);
  }

  lemma NoLegacyColumn()
    ensures "legacy" !in ProductWarehousesTable().definition.columns
  {
    hide TableOk, NoRepeats;
  }

  lemma LinksKept()
    ensures forall fk :: fk in ProductWarehousesTable().definition.fks ==>
              fk.column in ProductWarehousesTable().definition.columns && fk.target in ENHANCED
  {
    hide ProductWarehousesTable;
  }
}
