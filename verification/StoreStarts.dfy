/** A concrete schema from which the two store revisions run, and on which it can be seen that their downgrades
    do not lead back: the bare tables of the store with `dummy_products`.  It serves the stock engine, the
    warehouse revision and the chain of the two. */
module StoreStarts {
  import opened SchemaModel
  import opened CreationScripts
  import opened WarehouseTables
  import opened WarehouseMigrations
  import opened GuardedColumns

  const STORE: set<TableName> := {PRODUCTS, WAREHOUSES, STORAGE_LOCATIONS, USERS, UNIT_OF_MEASURES}

  /** The bare tables that the two revisions point to, and `dummy_products` with its indexes. */
  function StoreStart(): Schema {
    Normalised(Bare(STORE))
  }

  predicate PointsInto(n: NewTable, targets: set<TableName>) {
    forall fk :: fk in n.definition.fks ==> fk.target in targets
  }

  lemma StockTargets(i: nat)
    requires i < 5
    ensures PointsInto(StockScript()[i], STORE + if i == 4 then {INVENTORY_TRANSACTION_TYPES} else {})
  {
    hide InventoryTransactionTypesTable, InventoryAdjustmentsTable, OpeningStocksTable, StockBalancesTable,
         StockLedgersTable, TableOk;
    CountTargets();
    MovementTargets();
  }

  lemma CountTargets()
    ensures PointsInto(InventoryTransactionTypesTable(), STORE)
    ensures PointsInto(InventoryAdjustmentsTable(), STORE) && PointsInto(OpeningStocksTable(), STORE)
  {
    hide Define, TableOk, NoRepeats;
  }

  lemma MovementTargets()
    ensures PointsInto(StockBalancesTable(), STORE)
    ensures PointsInto(StockLedgersTable(), STORE + {INVENTORY_TRANSACTION_TYPES})
  {
    hide Define, TableOk, NoRepeats;
  }

  lemma StockNames(i: nat)
    requires i < 5
    ensures StockScript()[i].name == Known(40 + i)
  {
    hide InventoryTransactionTypesTable, InventoryAdjustmentsTable, OpeningStocksTable, StockBalancesTable,
         StockLedgersTable, TableOk;
  }

  lemma WarehouseTargets(i: nat)
    requires i < 6
    ensures PointsInto(WarehouseScript()[i], STORE + if i < 3 then {} else {Known(45 + i - 3)})
  {
    hide GoodsIssuesTable, GoodsReceiptsTable, StockTransfersTable, GoodsIssueItemsTable, GoodsReceiptItemsTable,
         StockTransferItemsTable, TableOk;
    DocumentTargets();
    ItemTargets();
  }

  lemma DocumentTargets()
    ensures PointsInto(GoodsIssuesTable(), STORE) && PointsInto(GoodsReceiptsTable(), STORE)
    ensures PointsInto(StockTransfersTable(), STORE)
  {
    hide Define, TableOk, NoRepeats;
  }

  lemma ItemTargets()
    ensures PointsInto(GoodsIssueItemsTable(), STORE + {Known(45)})
    ensures PointsInto(GoodsReceiptItemsTable(), STORE + {Known(46)})
    ensures PointsInto(StockTransferItemsTable(), STORE + {Known(47)})
  {
    hide Define, TableOk, NoRepeats;
  }

  lemma WarehouseNames(i: nat)
    requires i < 6
    ensures WarehouseScript()[i].name == Known(45 + i)
  {
    hide GoodsIssuesTable, GoodsReceiptsTable, StockTransfersTable, GoodsIssueItemsTable, GoodsReceiptItemsTable,
         StockTransferItemsTable, TableOk;
  }

  /** `Known(first)` to `Known(last)` and their indexes are free. */
  ghost predicate Untouched(s: Schema, first: int, last: int) {
    && (forall p: nat :: first <= p <= last ==> Known(p) !in s.tables)
    && (forall x :: x in s.indexes ==> x.Ix? && !(x.table.Known? && first <= x.table.position <= last))
  }

  ghost predicate Stocked(s: Schema) {
    forall t :: t in STORE ==> HasKey(s, t)
  }

  lemma DummyIndexed(x: IndexName)
    ensures var n := DummyProductsTable();
            && (x in IndexesFor(n, |n.indexed|)
                <==> x == Ix(DUMMY_PRODUCTS, "id") || x == Ix(DUMMY_PRODUCTS, "is_deleted"))
            && (x in IndexesFor(n, |n.indexed|) ==> IndexesFor(n, |n.indexed|)[x] == Index(DUMMY_PRODUCTS, {x.column}))
  {
    hide IndexesFor, DummyProductsTable, TableOk;
    var n := DummyProductsTable();
    DummyIndexes();
    assert n.indexed[..|n.indexed|] == n.indexed;
    IndexesForKeys(n, |n.indexed|, x);
  }

  lemma StoreStartIndexes()
    ensures var s := StoreStart();
            && (forall x :: x in s.indexes <==> x == Ix(DUMMY_PRODUCTS, "id") || x == Ix(DUMMY_PRODUCTS, "is_deleted"))
            && (forall x :: x in s.indexes ==> s.indexes[x] == Index(DUMMY_PRODUCTS, {x.column}))
            && WAREHOUSE_INDEX !in s.indexes
  {
    hide IndexesFor, DummyProductsTable, TableOk;
    var n, s := DummyProductsTable(), StoreStart();
    assert s.indexes == IndexesFor(n, |n.indexed|);
    forall x
      ensures x in s.indexes <==> x == Ix(DUMMY_PRODUCTS, "id") || x == Ix(DUMMY_PRODUCTS, "is_deleted")
      ensures x in s.indexes ==> s.indexes[x] == Index(DUMMY_PRODUCTS, {x.column})
    {
      DummyIndexed(x);
    }
  }

  lemma StoreStartShape()
    ensures Untouched(StoreStart(), 40, 50) && Stocked(StoreStart()) && Sound(StoreStart())
    ensures var s := StoreStart();
            && DUMMY_PRODUCTS in s.tables && s.tables.Keys == STORE + {DUMMY_PRODUCTS}
            && WAREHOUSE_INDEX !in s.indexes
            && (forall t :: t in s.tables ==> s.tables[t].fks == {})
            && (forall x :: x in s.indexes <==> x == Ix(DUMMY_PRODUCTS, "id") || x == Ix(DUMMY_PRODUCTS, "is_deleted"))
            && (forall x :: x in s.indexes ==> s.indexes[x] == Index(DUMMY_PRODUCTS, {x.column}))
  {
    hide IndexesFor, DummyProductsTable, TableOk;
    var n, s := DummyProductsTable(), StoreStart();
    DummyIndexes();
    DummyOk();
    StoreStartIndexes();
  }

  lemma DummyOk()
    ensures forall c :: c in DummyProductsTable().indexed ==> c in DummyProductsTable().definition.columns
  {
    hide Define;
  }

  lemma StockReady(s: Schema)
    requires Untouched(s, 40, 44) && Stocked(s)
    ensures Ready(s, StockScript())
  {
    hide StockScript, ScriptOk, TableOk, StockLedgersTable;
    var script := StockScript();
    StockScriptOk();
    forall i | 0 <= i < |script| ensures ReadyAt(s, script, i) {
      StockNames(i);
      StockTargets(i);
      if i == 4 {
        StockNames(0);
        CreatedAt(script, 0, 4);
      }
    }
  }

  lemma WarehouseReady(s: Schema)
    requires Untouched(s, 45, 50) && Stocked(s)
    ensures Ready(s, WarehouseScript())
  {
    hide WarehouseScript;
    var script := WarehouseScript();
    WarehouseScriptSize();
    forall i | 0 <= i < |script| ensures ReadyAt(s, script, i) {
      WarehouseNames(i);
      WarehouseTargets(i);
      if i >= 3 {
        WarehouseNames(i - 3);
        CreatedAt(script, i - 3, i);
      }
    }
  }

  lemma WarehouseScriptSize()
    ensures |WarehouseScript()| == 6
  {
  }

  /** The tables `Known(first)` and on have been built from the script, and the rest is as it was. */
  ghost predicate BuiltOn(s: Schema, b: Schema, script: seq<NewTable>, first: nat) {
    && (forall t :: t in b.tables <==> t in s.tables || IsNew(t, script, first))
    && (forall t :: t in s.tables ==> t in b.tables && b.tables[t] == s.tables[t])
    && (forall t :: t in b.tables && t !in s.tables && IsNew(t, script, first) ==>
          b.tables[t] == script[t.position - first].definition)
    && (forall x :: x in s.indexes ==> x in b.indexes && b.indexes[x] == s.indexes[x])
    && (forall x :: x in b.indexes && x !in s.indexes ==> x.Ix? && IsNew(x.table, script, first))
  }

  predicate IsNew(t: TableName, script: seq<NewTable>, first: nat) {
    t.Known? && first <= t.position < first + |script|
  }

  lemma BuiltShape(s: Schema, script: seq<NewTable>, first: nat)
    requires ScriptOk(script) && forall i :: 0 <= i < |script| ==> script[i].name == Known(first + i)
    requires Untouched(s, first, first + |script| - 1)
    ensures BuiltOn(s, Built(s, script), script, first)
  {
    hide TablesOf, IndexesOf, ScriptOk;
    forall t
      ensures t in TablesOf(script) <==> IsNew(t, script, first)
      ensures IsNew(t, script, first) ==> TablesOf(script)[t] == script[t.position - first].definition
    {
      NewTables(script, first, t);
    }
    hide IsNew;
    forall x | x in IndexesOf(script) ensures x.Ix? && IsNew(x.table, script, first) && x !in s.indexes {
      NewIndexes(s, script, first, x);
    }
    forall t | IsNew(t, script, first) ensures t !in s.tables {
      NewIsFree(s, script, first, t);
    }
  }

  lemma NewIsFree(s: Schema, script: seq<NewTable>, first: nat, t: TableName)
    requires Untouched(s, first, first + |script| - 1) && IsNew(t, script, first)
    ensures t !in s.tables
  {
  }

  lemma NewTables(script: seq<NewTable>, first: nat, t: TableName)
    requires ScriptOk(script) && forall i :: 0 <= i < |script| ==> script[i].name == Known(first + i)
    ensures t in TablesOf(script) <==> IsNew(t, script, first)
    ensures IsNew(t, script, first) ==>
              t in TablesOf(script) && TablesOf(script)[t] == script[t.position - first].definition
  {
    hide TablesOf, ScriptOk, CreatedBefore;
    TablesOfKeys(script, t);
    if IsNew(t, script, first) {
      NewEntry(script, t.position - first, t);
    } else if CreatedBefore(script, |script|, t) {
      var i := CreatedWhere(script, |script|, t);
    }
  }

  lemma NewEntry(script: seq<NewTable>, i: nat, t: TableName)
    requires ScriptOk(script) && i < |script| && script[i].name == t
    ensures CreatedBefore(script, |script|, t)
    ensures t in TablesOf(script) && TablesOf(script)[t] == script[i].definition
  {
    hide TablesOf, ScriptOk, CreatedBefore;
    CreatedAt(script, i, |script|);
    EntryBuilt(script, i);
  }

  lemma NewIndexes(s: Schema, script: seq<NewTable>, first: nat, x: IndexName)
    requires ScriptOk(script) && forall i :: 0 <= i < |script| ==> script[i].name == Known(first + i)
    requires Untouched(s, first, first + |script| - 1) && x in IndexesOf(script)
    ensures x.Ix? && IsNew(x.table, script, first) && x !in s.indexes
  {
    hide IndexesOf, ScriptOk;
    var i := IndexesOfWhere(script, x);
  }

  lemma StockBuilt(s: Schema)
    requires Untouched(s, 40, 50)
    ensures BuiltOn(s, Built(s, StockScript()), StockScript(), 40) && |StockScript()| == 5
    ensures Untouched(Built(s, StockScript()), 45, 50)
  {
    hide StockScript, Built, ScriptOk;
    StockScriptOk();
    forall i | 0 <= i < 5 ensures StockScript()[i].name == Known(40 + i) {
      StockNames(i);
    }
    BuiltShape(s, StockScript(), 40);
  }

  lemma WarehouseBuilt(mid: Schema)
    requires Untouched(mid, 45, 50)
    ensures BuiltOn(mid, Built(mid, WarehouseScript()), WarehouseScript(), 45) && |WarehouseScript()| == 6
  {
    hide WarehouseScript, Built, ScriptOk;
    WarehouseScriptOk();
    WarehouseScriptSize();
    forall i | 0 <= i < 6 ensures WarehouseScript()[i].name == Known(45 + i) {
      WarehouseNames(i);
    }
    BuiltShape(mid, WarehouseScript(), 45);
  }

  /** Nothing that the scripts build points to `dummy_products`. */
  lemma DummyUnreferenced(s: Schema, mid: Schema, b: Schema)
    requires BuiltOn(s, mid, StockScript(), 40) && |StockScript()| == 5
    requires BuiltOn(mid, b, WarehouseScript(), 45) && |WarehouseScript()| == 6
    requires Untouched(s, 40, 50) && Untouched(mid, 45, 50) && forall t :: t in s.tables ==> s.tables[t].fks == {}
    ensures !Referenced(b, DUMMY_PRODUCTS)
  {
    hide StockScript, WarehouseScript, Untouched, BuiltOn, PointsInto;
    forall u, fk | u in b.tables && fk in b.tables[u].fks ensures fk.target != DUMMY_PRODUCTS {
      if u !in mid.tables {
        WarehouseAway(mid, b, u);
      } else {
        KeptByScript(mid, b, WarehouseScript(), 45, u);
        if u !in s.tables {
          StockAway(s, mid, u);
        } else {
          KeptByScript(s, mid, StockScript(), 40, u);
        }
      }
    }
  }

  lemma KeptByScript(s: Schema, b: Schema, script: seq<NewTable>, first: nat, u: TableName)
    requires BuiltOn(s, b, script, first) && u in s.tables
    ensures u in b.tables && b.tables[u] == s.tables[u]
  {
  }

  lemma StockAway(s: Schema, mid: Schema, u: TableName)
    requires BuiltOn(s, mid, StockScript(), 40) && |StockScript()| == 5 && u in mid.tables && u !in s.tables
    ensures forall fk :: fk in mid.tables[u].fks ==> fk.target != DUMMY_PRODUCTS
  {
    hide StockScript;
    StockTargets(u.position - 40);
  }

  lemma WarehouseAway(mid: Schema, b: Schema, u: TableName)
    requires BuiltOn(mid, b, WarehouseScript(), 45) && |WarehouseScript()| == 6 && u in b.tables && u !in mid.tables
    ensures forall fk :: fk in b.tables[u].fks ==> fk.target != DUMMY_PRODUCTS
  {
    hide WarehouseScript;
    WarehouseTargets(u.position - 45);
  }

  lemma DropDummyRuns(b: Schema)
    requires DUMMY_PRODUCTS in b.tables && !Referenced(b, DUMMY_PRODUCTS)
    requires Ix(DUMMY_PRODUCTS, "id") in b.indexes && Ix(DUMMY_PRODUCTS, "is_deleted") in b.indexes
    requires WAREHOUSE_INDEX !in b.indexes
    requires STOCK_LEDGERS in b.tables && "warehouse_id" in b.tables[STOCK_LEDGERS].columns
    ensures Exec(b, DropDummy()).Ok?
  {
    hide Exec, Apply;
    var x, y := Ix(DUMMY_PRODUCTS, "id"), Ix(DUMMY_PRODUCTS, "is_deleted");
    var z, w := DropTable(DUMMY_PRODUCTS), CreateIndex(WAREHOUSE_INDEX, STOCK_LEDGERS, {"warehouse_id"});
    IndexDropped(b, x);
    var s1 := b.(indexes := b.indexes - {x});
    IndexDropped(s1, y);
    var s2 := s1.(indexes := s1.indexes - {y});
    DummyGoes(s2);
    ExecTwo(b, DropIndex(x), DropIndex(y));
    ExecTwo(s2, z, w);
    ExecConcat(b, [DropIndex(x), DropIndex(y)], [z, w]);
    assert DropDummy() == [DropIndex(x), DropIndex(y)] + [z, w];
  }

  lemma DummyGoes(s: Schema)
    requires DUMMY_PRODUCTS in s.tables && !Referenced(s, DUMMY_PRODUCTS) && WAREHOUSE_INDEX !in s.indexes
    requires STOCK_LEDGERS in s.tables && "warehouse_id" in s.tables[STOCK_LEDGERS].columns
    ensures var d := Apply(s, DropTable(DUMMY_PRODUCTS));
            d.Ok? && Apply(d.schema, CreateIndex(WAREHOUSE_INDEX, STOCK_LEDGERS, {"warehouse_id"})).Ok?
  {
    hide Referenced, Apply;
    DropThenIndex(s, DUMMY_PRODUCTS, WAREHOUSE_INDEX, STOCK_LEDGERS, "warehouse_id");
  }

  lemma DropThenIndex(s: Schema, t: TableName, x: IndexName, u: TableName, c: string)
    requires t in s.tables && !Referenced(s, t) && x !in s.indexes
    requires u in s.tables && u != t && c in s.tables[u].columns
    ensures var d := Apply(s, DropTable(t));
            d.Ok? && Apply(d.schema, CreateIndex(x, u, {c})).Ok?
  {
    hide Referenced;
  }

  lemma LedgerHasWarehouse()
    ensures "warehouse_id" in StockLedgersTable().definition.columns
  {
    hide TableOk, NoRepeats;
    assert References("warehouse_id", WAREHOUSES) in StockLedgersTable().definition.fks;
  }

  /** Where the start stands after either upgrade. */
  lemma StoreBuilt()
    ensures var mid := Built(StoreStart(), StockScript());
            && Ready(StoreStart(), StockScript()) && Ready(mid, WarehouseScript())
            && Exec(Built(mid, WarehouseScript()), DropDummy()).Ok?
  {
    hide Exec, StockScript, WarehouseScript, Built, Ready, StoreStart, Sound, BuiltOn, DropDummy, Referenced, Untouched,
         Stocked;
    var s := StoreStart();
    var mid := Built(s, StockScript());
    StoreStartShape();
    StockBuilt(s);
    UntouchedLess(s);
    StockReady(s);
    StockedLater(s, mid);
    WarehouseReady(mid);
    WarehouseBuilt(mid);
    DropDummyFollows(s, mid, Built(mid, WarehouseScript()));
  }

  lemma UntouchedLess(s: Schema)
    requires Untouched(s, 40, 50)
    ensures Untouched(s, 40, 44)
  {
  }

  lemma StockedLater(s: Schema, mid: Schema)
    requires BuiltOn(s, mid, StockScript(), 40) && Stocked(s)
    ensures Stocked(mid)
  {
    hide StockScript;
    forall t | t in STORE ensures HasKey(mid, t) {
      assert HasKey(s, t);
    }
  }

  lemma DropDummyFollows(s: Schema, mid: Schema, b: Schema)
    requires s == StoreStart() && mid == Built(s, StockScript()) && b == Built(mid, WarehouseScript())
    requires BuiltOn(s, mid, StockScript(), 40) && |StockScript()| == 5
    requires BuiltOn(mid, b, WarehouseScript(), 45) && |WarehouseScript()| == 6 && Untouched(mid, 45, 50)
    ensures Exec(b, DropDummy()).Ok?
  {
    hide Exec, StockScript, WarehouseScript, Built, StoreStart, Sound, DropDummy, Referenced, Untouched, Stocked,
         BuiltOn;
    StoreStartShape();
    DummyUnreferenced(s, mid, b);
    WarehouseIndexFree(s);
    LedgerBuilt(s, mid, b);
    DummyKept(s, mid, b);
    DropDummyRuns(b);
  }

  lemma LedgerBuilt(s: Schema, mid: Schema, b: Schema)
    requires BuiltOn(s, mid, StockScript(), 40) && |StockScript()| == 5 && BuiltOn(mid, b, WarehouseScript(), 45)
    requires Untouched(s, 40, 50)
    ensures STOCK_LEDGERS in b.tables && "warehouse_id" in b.tables[STOCK_LEDGERS].columns
  {
    hide StockScript, WarehouseScript, ScriptOk, StockLedgersTable, TableOk;
    LedgerHasWarehouse();
    StockScriptOk();
    assert STOCK_LEDGERS == Known(44);
    assert STOCK_LEDGERS in mid.tables && mid.tables[STOCK_LEDGERS] == StockScript()[4].definition;
  }

  lemma DummyKept(s: Schema, mid: Schema, b: Schema)
    requires BuiltOn(s, mid, StockScript(), 40) && BuiltOn(mid, b, WarehouseScript(), 45) && DUMMY_PRODUCTS in s.tables
    requires Ix(DUMMY_PRODUCTS, "id") in s.indexes && Ix(DUMMY_PRODUCTS, "is_deleted") in s.indexes
    requires WAREHOUSE_INDEX !in mid.indexes
    ensures DUMMY_PRODUCTS in b.tables
    ensures Ix(DUMMY_PRODUCTS, "id") in b.indexes && Ix(DUMMY_PRODUCTS, "is_deleted") in b.indexes
    ensures WAREHOUSE_INDEX !in b.indexes
  {
    hide StockScript, WarehouseScript;
  }

  /** The stock-engine upgrade runs on this start and its downgrade right after it is refused; both
      upgrades run, the warehouse downgrade runs, and the stock-engine downgrade is stuck. */
  lemma StoreStartRuns()
    ensures var s := StoreStart();
            && Sound(s)
            && Exec(s, StockUpgrade()).Ok?
            && Exec(Exec(s, StockUpgrade()).schema, StockDowngrade()).Refused?
            && Exec(s, StockUpgrade() + WarehouseUpgrade()).Ok?
            && var top := Exec(s, StockUpgrade() + WarehouseUpgrade()).schema;
            && Exec(top, WarehouseDowngrade()).Ok?
            && Exec(top, WarehouseDowngrade() + StockDowngrade()).Refused?
  {
    hide *;
    var s := StoreStart();
    var mid := Built(s, StockScript());
    StoreStartShape();
    StoreBuilt();
    StockScriptOk();
    WarehouseScriptOk();
    StockUpgradeIs();
    WarehouseUpgradeShape();
    CreateAllExactly(s, StockScript());
    CreateAllExactly(mid, WarehouseScript());
    StockDowngradeRunsExactly(s);
    ExecConcat(mid, CreateAll(WarehouseScript()), DropDummy());
    ExecConcat(s, StockUpgrade(), WarehouseUpgrade());
    ChainStuckAfterBothUpgrades(s);
  }

  lemma WarehouseIndexFree(s: Schema)
    requires WAREHOUSE_INDEX !in s.indexes
    ensures WAREHOUSE_INDEX !in Built(s, StockScript()).indexes
  {
    hide StockScript, IndexesOf;
    NoWarehouseIndex();
  }
}
