/** The stock engine and warehouse revisions: their downgrades, and why the chain of the two cannot
    be taken back. */
module WarehouseMigrations {
  import opened SchemaModel
  import opened CreationScripts
  import opened WarehouseTables

  // ---------------------------------------------------------------- the programs

  lemma UndoSnoc(script: seq<NewTable>, n: NewTable)
    ensures UndoAll(script + [n]) == UndoOps(n) + UndoAll(script)
  {
    assert (script + [n])[..|script|] == script;
  }

  lemma UndoFive(a: NewTable, b: NewTable, c: NewTable, d: NewTable, e: NewTable)
    ensures UndoAll([a, b, c, d, e]) == UndoOps(e) + UndoOps(d) + UndoOps(c) + UndoOps(b) + UndoOps(a)
  {
    hide UndoOps, UndoAll;
    UndoSnoc([], a);
    UndoSnoc([a], b);
    UndoSnoc([a, b], c);
    UndoSnoc([a, b, c], d);
    UndoSnoc([a, b, c, d], e);
    assert [] + [a] == [a] && [a] + [b] == [a, b] && [a, b] + [c] == [a, b, c];
    assert [a, b, c] + [d] == [a, b, c, d] && [a, b, c, d] + [e] == [a, b, c, d, e];
    UndoNone();
  }

  lemma UndoNone()
    ensures UndoAll([]) == []
  {
  }

  /** Apart from its first step, the stock-engine downgrade undoes the upgrade step by step. */
  lemma StockDowngradeShape()
    ensures StockDowngrade() == [DropIndex(WAREHOUSE_INDEX)] + UndoAll(StockScript())
    ensures StockDowngrade()[1..] == UndoAll(StockScript())
  {
    hide UndoOps, UndoAll, StockLedgersDrops, StockBalancesDrops, OpeningStocksDrops, InventoryAdjustmentsDrops,
         InventoryTransactionTypesDrops, InventoryTransactionTypesTable, InventoryAdjustmentsTable,
         OpeningStocksTable, StockBalancesTable, StockLedgersTable;
    UndoFive(InventoryTransactionTypesTable(), InventoryAdjustmentsTable(), OpeningStocksTable(),
             StockBalancesTable(), StockLedgersTable());
    assert StockDowngrade() == [DropIndex(WAREHOUSE_INDEX)] + UndoAll(StockScript());
  }

  /** The warehouse downgrade drops the item tables before the documents they belong to. */
  lemma WarehouseDowngradeShape()
    ensures WarehouseDowngrade()
         == [DropIndex(WAREHOUSE_INDEX)] + CreateOps(DummyProductsTable()) + UndoAll(WarehouseScript())
  {
    hide UndoOps, UndoAll, CreateOps, StockTransferItemsDrops, GoodsReceiptItemsDrops, GoodsIssueItemsDrops,
         StockTransfersDrops, GoodsReceiptsDrops, GoodsIssuesDrops, DummyProductsTable, GoodsIssuesTable,
         GoodsReceiptsTable, StockTransfersTable, GoodsIssueItemsTable, GoodsReceiptItemsTable,
         StockTransferItemsTable;
    UndoFive(GoodsIssuesTable(), GoodsReceiptsTable(), StockTransfersTable(), GoodsIssueItemsTable(),
             GoodsReceiptItemsTable());
    var five := [GoodsIssuesTable(), GoodsReceiptsTable(), StockTransfersTable(), GoodsIssueItemsTable(),
                 GoodsReceiptItemsTable()];
    UndoSnoc(five, StockTransferItemsTable());
    assert WarehouseScript() == five + [StockTransferItemsTable()];
  }

  lemma StockScriptOk()
    ensures ScriptOk(StockScript())
    ensures |StockScript()| == 5 && StockScript()[4] == StockLedgersTable()
  {
    hide TableOk, InventoryTransactionTypesTable, InventoryAdjustmentsTable, OpeningStocksTable,
         StockBalancesTable, StockLedgersTable;
  }

  lemma WarehouseScriptOk()
    ensures ScriptOk(WarehouseScript())
    ensures forall i :: 0 <= i < |WarehouseScript()| ==>
              WarehouseScript()[i].name in {GOODS_ISSUES, GOODS_RECEIPTS, STOCK_TRANSFERS, GOODS_ISSUE_ITEMS,
                                            GOODS_RECEIPT_ITEMS, STOCK_TRANSFER_ITEMS}
  {
    hide TableOk, GoodsIssuesTable, GoodsReceiptsTable, StockTransfersTable, GoodsIssueItemsTable,
         GoodsReceiptItemsTable, StockTransferItemsTable;
  }

  // ---------------------------------------------------------------- the stock engine

  /** Without that first step, upgrade then downgrade is the identity on every sound schema from
      which the upgrade runs. */
  lemma StockRoundTripWithoutFirstStep(s: Schema)
    requires Sound(s) && Exec(s, StockUpgrade()).Ok?
    ensures Exec(Exec(s, StockUpgrade()).schema, StockDowngrade()[1..]) == Ok(s)
  {
    hide Exec, StockScript, StockDowngrade, ScriptOk, Sound, CreateAll, UndoAll, Built;
    StockDowngradeShape();
    StockScriptOk();
    CreateAllExactly(s, StockScript());
    UndoAllRestores(s, StockScript());
  }

  lemma StockUpgradeIs()
    ensures StockUpgrade() == CreateAll(StockScript())
  {
    hide StockScript, CreateAll;
  }

  function WithoutIndex(s: Schema, x: IndexName): Schema {
    s.(indexes := s.indexes - {x})
  }

  /** With that step, the downgrade right after the upgrade runs exactly when the starting schema
      already had an index of that name, on a table of its own, and then takes it away. */
  lemma StockDowngradeRunsExactly(s: Schema)
    requires Sound(s) && Exec(s, StockUpgrade()).Ok?
    ensures var down := Exec(Exec(s, StockUpgrade()).schema, StockDowngrade());
            if WAREHOUSE_INDEX in s.indexes then down == Ok(WithoutIndex(s, WAREHOUSE_INDEX)) else down.Refused?
  {
    hide *;
    var script, x := StockScript(), WAREHOUSE_INDEX;
    StockDowngradeShape();
    StockScriptOk();
    StockUpgradeIs();
    CreateAllExactly(s, script);
    ExecConcat(Built(s, script), [DropIndex(x)], UndoAll(script));
    ExecOne(Built(s, script), DropIndex(x));
    NoWarehouseIndex();
    IndexUnbuilt(s, script, x);
    if x in s.indexes {
      UndoAllRestores(WithoutIndex(s, x), script);
    }
  }

  /** An index that the script does not build can be taken away before or after it. */
  lemma IndexUnbuilt(s: Schema, script: seq<NewTable>, x: IndexName)
    requires Sound(s) && Ready(s, script) && x !in IndexesOf(script)
    ensures Apply(Built(s, script), DropIndex(x))
         == if x in s.indexes then Ok(Built(WithoutIndex(s, x), script)) else Refused(Built(s, script))
    ensures Sound(WithoutIndex(s, x)) && Ready(WithoutIndex(s, x), script)
  {
    hide IndexesOf, TablesOf;
    assert s.indexes + IndexesOf(script) - {x} == (s.indexes - {x}) + IndexesOf(script);
    forall i | 0 <= i < |script| ensures ReadyAt(WithoutIndex(s, x), script, i) {
      assert ReadyAt(s, script, i);
    }
  }

  lemma NoWarehouseIndex()
    ensures WAREHOUSE_INDEX !in IndexesOf(StockScript())
  {
    hide StockScript, IndexesOf, TableOk;
    StockScriptOk();
    if WAREHOUSE_INDEX in IndexesOf(StockScript()) {
      var i := IndexesOfWhere(StockScript(), WAREHOUSE_INDEX);
      assert i == 4;
      LedgerColumnsIndexed();
    }
  }

  lemma LedgerColumnsIndexed()
    ensures "warehouse_id" !in StockLedgersTable().indexed
  {
  }

  // ---------------------------------------------------------------- the warehouse revision

  /** The schema with `dummy_products` and its indexes as the warehouse downgrade defines them. */
  function Normalised(s: Schema): Schema {
    Schema(s.tables[DUMMY_PRODUCTS := DummyProductsTable().definition],
           WithoutDummyIndexes(s.indexes) + IndexesFor(DummyProductsTable(), |DummyProductsTable().indexed|))
  }

  function WithoutDummyIndexes(indexes: map<IndexName, Index>): map<IndexName, Index> {
    map x | x in indexes && indexes[x].table != DUMMY_PRODUCTS
            && x != Ix(DUMMY_PRODUCTS, "id") && x != Ix(DUMMY_PRODUCTS, "is_deleted") :: indexes[x]
  }

  /** The steps of the warehouse upgrade after its six tables. */
  function DropDummy(): seq<Op> {
    [DropIndex(Ix(DUMMY_PRODUCTS, "id")), DropIndex(Ix(DUMMY_PRODUCTS, "is_deleted")), DropTable(DUMMY_PRODUCTS),
     CreateIndex(WAREHOUSE_INDEX, STOCK_LEDGERS, {"warehouse_id"})]
  }

  lemma ExecFour(s: Schema, a: Op, b: Op, c: Op, d: Op)
    requires Exec(s, [a, b, c, d]).Ok?
    ensures var s1 := Apply(s, a);
            s1.Ok? && var s2 := Apply(s1.schema, b);
            s2.Ok? && var s3 := Apply(s2.schema, c);
            s3.Ok? && Exec(s, [a, b, c, d]) == Apply(s3.schema, d)
  {
    hide Apply;
    assert [a, b, c, d] == [a] + [b] + [c] + [d];
    ExecConcat(s, [a] + [b] + [c], [d]);
    ExecConcat(s, [a] + [b], [c]);
    ExecConcat(s, [a], [b]);
    ExecOne(s, a);
    ExecOne(Apply(s, a).schema, b);
    ExecOne(Apply(Apply(s, a).schema, b).schema, c);
    ExecOne(Apply(Apply(Apply(s, a).schema, b).schema, c).schema, d);
  }

  /** What those steps do when they run through. */
  lemma DummyDropped(b: Schema)
    requires Exec(b, DropDummy()).Ok?
    ensures var d := Exec(b, DropDummy()).schema;
            && DUMMY_PRODUCTS in b.tables && !Referenced(b, DUMMY_PRODUCTS)
            && WAREHOUSE_INDEX !in WithoutDummyIndexes(b.indexes)
            && d.tables == b.tables - {DUMMY_PRODUCTS}
            && d.indexes == WithoutDummyIndexes(b.indexes)[WAREHOUSE_INDEX := Index(STOCK_LEDGERS, {"warehouse_id"})]
  {
    var x, y := Ix(DUMMY_PRODUCTS, "id"), Ix(DUMMY_PRODUCTS, "is_deleted");
    ExecFour(b, DropIndex(x), DropIndex(y), DropTable(DUMMY_PRODUCTS),
             CreateIndex(WAREHOUSE_INDEX, STOCK_LEDGERS, {"warehouse_id"}));
    var s2 := Apply(Apply(b, DropIndex(x)).schema, DropIndex(y)).schema;
    assert s2.tables == b.tables && s2.indexes == b.indexes - {x} - {y};
    var s3 := Apply(s2, DropTable(DUMMY_PRODUCTS)).schema;
    assert s3.indexes == WithoutDummyIndexes(b.indexes);
  }

  lemma WarehouseUpgradeShape()
    ensures WarehouseUpgrade() == CreateAll(WarehouseScript()) + DropDummy()
  {
    hide WarehouseScript, CreateAll;
  }

  /** Putting `dummy_products` back on top of what the script built. */
  lemma DummyRestored(s: Schema, script: seq<NewTable>, d: Schema)
    requires Sound(s) && Ready(s, script) && ScriptOk(script) && !CreatedBefore(script, |script|, DUMMY_PRODUCTS)
    requires !Referenced(Built(s, script), DUMMY_PRODUCTS)
    requires d.tables == Built(s, script).tables - {DUMMY_PRODUCTS}
    requires d.indexes == WithoutDummyIndexes(Built(s, script).indexes)
    ensures Exec(d, CreateOps(DummyProductsTable())) == Ok(Built(Normalised(s), script))
    ensures Sound(Normalised(s)) && Ready(Normalised(s), script)
  {
    hide TablesOf, IndexesOf, Exec, ScriptOk, Ready, Sound, CreatedBefore, IndexesFor;
    var dummy := DummyProductsTable();
    DummyIndexes();
    TableCreated(d, dummy);
    assert Linked(d, DUMMY_PRODUCTS, dummy.definition);
    forall c | c in dummy.indexed ensures Ix(DUMMY_PRODUCTS, c) !in d.indexes {}
    DummyReplaced(s, script);
    NormalisedReady(s, script);
    NormalisedSound(s, script);
  }

  lemma DummyIndexes()
    ensures var n := DummyProductsTable();
            && n.name == DUMMY_PRODUCTS && TableOk(n) && n.definition.fks == {}
            && forall c :: c in n.indexed <==> c == "id" || c == "is_deleted"
  {
  }

  /** The script's own tables and indexes do not meet `dummy_products`. */
  lemma DummyReplaced(s: Schema, script: seq<NewTable>)
    requires !CreatedBefore(script, |script|, DUMMY_PRODUCTS)
    ensures var n := DummyProductsTable();
            var b := Built(s, script);
            Built(Normalised(s), script)
            == Schema((b.tables - {DUMMY_PRODUCTS})[DUMMY_PRODUCTS := n.definition],
                      WithoutDummyIndexes(b.indexes) + IndexesFor(n, |n.indexed|))
  {
    hide TablesOf, IndexesOf, CreatedBefore, IndexesFor, DummyProductsTable;
    var n := DummyProductsTable();
    TablesOfKeys(script, DUMMY_PRODUCTS);
    DummyIndexes();
    forall x
      ensures x in IndexesOf(script) ==>
                x.Ix? && x.table != DUMMY_PRODUCTS && IndexesOf(script)[x].table != DUMMY_PRODUCTS
      ensures x in IndexesFor(n, |n.indexed|) ==> x.Ix? && x.table == DUMMY_PRODUCTS
    {
      IndexesOfKeys(script, x);
      IndexesForKeys(n, |n.indexed|, x);
    }
    TableReplaced(s.tables, TablesOf(script), DUMMY_PRODUCTS, n.definition);
    DummyIndexesReplaced(s.indexes, IndexesOf(script), IndexesFor(n, |n.indexed|));
  }

  lemma TableReplaced<K, V>(a: map<K, V>, b: map<K, V>, key: K, value: V)
    requires key !in b
    ensures a[key := value] + b == (a + b - {key})[key := value]
  {
  }

  lemma DummyIndexesReplaced(a: map<IndexName, Index>, b: map<IndexName, Index>, c: map<IndexName, Index>)
    requires forall x :: x in b ==> x.Ix? && x.table != DUMMY_PRODUCTS && b[x].table != DUMMY_PRODUCTS
    requires forall x :: x in c ==> x.Ix? && x.table == DUMMY_PRODUCTS
    ensures WithoutDummyIndexes(a) + c + b == WithoutDummyIndexes(a + b) + c
  {
  }

  lemma NormalisedReady(s: Schema, script: seq<NewTable>)
    requires Ready(s, script) && ScriptOk(script) && !CreatedBefore(script, |script|, DUMMY_PRODUCTS)
    requires !Referenced(Built(s, script), DUMMY_PRODUCTS)
    ensures Ready(Normalised(s), script)
  {
    hide TablesOf, IndexesOf, IndexesFor, DummyProductsTable, TableOk, CreatedBefore, ScriptOk;
    var n := DummyProductsTable();
    DummyIndexes();
    forall i | 0 <= i < |script| ensures ReadyAt(Normalised(s), script, i) {
      assert ReadyAt(s, script, i);
      CreatedAt(script, i, |script|);
      EntryBuilt(script, i);
      forall c | c in script[i].indexed ensures Ix(script[i].name, c) !in Normalised(s).indexes {
        IndexesForKeys(n, |n.indexed|, Ix(script[i].name, c));
      }
      forall fk | fk in script[i].definition.fks ensures fk.target != DUMMY_PRODUCTS {
        assert fk in Built(s, script).tables[script[i].name].fks;
      }
    }
  }

  lemma NormalisedSound(s: Schema, script: seq<NewTable>)
    requires Sound(s) && Ready(s, script) && !Referenced(Built(s, script), DUMMY_PRODUCTS)
    ensures Sound(Normalised(s))
  {
    hide TablesOf, IndexesOf, IndexesFor, CreatedBefore;
    var n, d := DummyProductsTable(), Normalised(s);
    DummyIndexes();
    hide DummyProductsTable;
    forall u | u in d.tables ensures Linked(d, u, d.tables[u]) {
      if u != DUMMY_PRODUCTS {
        assert u in s.tables && Linked(s, u, s.tables[u]);
        NotNew(s, script, u);
        forall fk | fk in s.tables[u].fks ensures fk.target != DUMMY_PRODUCTS {
          assert fk in Built(s, script).tables[u].fks;
        }
      }
    }
    forall x | x in d.indexes
      ensures d.indexes[x].table in d.tables && d.indexes[x].columns <= d.tables[d.indexes[x].table].columns
    {
      IndexesForKeys(n, |n.indexed|, x);
      assert n.indexed[..|n.indexed|] == n.indexed;
    }
  }

  /** A table of the starting schema is not one of the new ones. */
  lemma NotNew(s: Schema, script: seq<NewTable>, u: TableName)
    requires Ready(s, script) && u in s.tables
    ensures u !in TablesOf(script)
  {
    hide TablesOf, CreatedBefore;
    TablesOfKeys(script, u);
    forall i | 0 <= i < |script| ensures script[i].name !in s.tables {
      assert ReadyAt(s, script, i);
    }
    if CreatedBefore(script, |script|, u) {
      var i := CreatedWhere(script, |script|, u);
    }
  }

  /** Whenever the warehouse upgrade runs from a sound schema, its downgrade runs too and restores
      everything but `dummy_products`, which comes back in the downgrade's own definition; so the pair
      is the identity exactly when the start had that definition. */
  lemma WarehouseRoundTrip(s: Schema)
    requires Sound(s) && Exec(s, WarehouseUpgrade()).Ok?
    ensures Exec(Exec(s, WarehouseUpgrade()).schema, WarehouseDowngrade()) == Ok(Normalised(s))
  {
    hide *;
    var script := WarehouseScript();
    WarehouseUpgradeShape();
    WarehouseDowngradeShape();
    WarehouseScriptOk();
    ExecConcat(s, CreateAll(script), DropDummy());
    CreateAllExactly(s, script);
    var b := Built(s, script);
    DummyDropped(b);
    var top := Exec(b, DropDummy()).schema;
    NoDummyInScript();
    var d := Schema(top.tables, WithoutDummyIndexes(b.indexes));
    WarehouseIndexDropped(top, d);
    DummyRestored(s, script, d);
    var dropIt := [DropIndex(WAREHOUSE_INDEX)];
    ExecConcat(top, dropIt + CreateOps(DummyProductsTable()), UndoAll(script));
    ExecConcat(top, dropIt, CreateOps(DummyProductsTable()));
    ExecOne(top, DropIndex(WAREHOUSE_INDEX));
    UndoAllRestores(Normalised(s), script);
  }

  lemma WarehouseIndexDropped(top: Schema, d: Schema)
    requires WAREHOUSE_INDEX !in d.indexes && d.tables == top.tables
    requires top.indexes == d.indexes[WAREHOUSE_INDEX := Index(STOCK_LEDGERS, {"warehouse_id"})]
    ensures Apply(top, DropIndex(WAREHOUSE_INDEX)) == Ok(d)
  {
    assert top.indexes - {WAREHOUSE_INDEX} == d.indexes;
  }

  lemma NoDummyInScript()
    ensures !CreatedBefore(WarehouseScript(), |WarehouseScript()|, DUMMY_PRODUCTS)
  {
    hide WarehouseScript, TableOk;
    WarehouseScriptOk();
    if CreatedBefore(WarehouseScript(), |WarehouseScript()|, DUMMY_PRODUCTS) {
      var i := CreatedWhere(WarehouseScript(), |WarehouseScript()|, DUMMY_PRODUCTS);
    }
  }

  // ---------------------------------------------------------------- the chain

  /** A program that never creates the index leaves it absent. */
  lemma {:induction false} IndexStaysAbsent(s: Schema, ops: seq<Op>, x: IndexName)
    requires x !in s.indexes && forall i :: 0 <= i < |ops| ==> !(ops[i].CreateIndex? && ops[i].index == x)
    ensures x !in Exec(s, ops).schema.indexes
  {
    if |ops| > 0 {
      IndexStaysAbsent(s, ops[..|ops| - 1], x);
    }
  }

  /** From no schema at all can the stock-engine downgrade follow the warehouse downgrade: its first
      step drops the index that the warehouse downgrade has already dropped. */
  lemma ChainCannotBeTakenBack(s: Schema)
    requires Exec(s, WarehouseDowngrade()).Ok?
    ensures Exec(Exec(s, WarehouseDowngrade()).schema, StockDowngrade())
         == Refused(Exec(s, WarehouseDowngrade()).schema)
  {
    hide Exec, Apply, WarehouseDowngrade, StockDowngrade, CreateOps, UndoAll, StockScript, WarehouseScript;
    var x := WAREHOUSE_INDEX;
    var rest := CreateOps(DummyProductsTable()) + UndoAll(WarehouseScript());
    WarehouseDowngradeShape();
    assert WarehouseDowngrade() == [DropIndex(x)] + rest;
    ExecConcat(s, [DropIndex(x)], rest);
    ExecOne(s, DropIndex(x));
    DroppedIsAbsent(s, x);
    RestCreatesNoSuchIndex();
    IndexStaysAbsent(Apply(s, DropIndex(x)).schema, rest, x);
    var d := Exec(s, WarehouseDowngrade()).schema;
    StockDowngradeShape();
    ExecConcat(d, [DropIndex(x)], UndoAll(StockScript()));
    ExecOne(d, DropIndex(x));
    AbsentCannotBeDropped(d, x);
  }

  lemma DroppedIsAbsent(s: Schema, x: IndexName)
    ensures x !in Apply(s, DropIndex(x)).schema.indexes
  {
  }

  lemma AbsentCannotBeDropped(s: Schema, x: IndexName)
    requires x !in s.indexes
    ensures Apply(s, DropIndex(x)) == Refused(s)
  {
  }

  lemma {:induction false} UndoCreatesNothing(script: seq<NewTable>)
    ensures forall i :: 0 <= i < |UndoAll(script)| ==> !UndoAll(script)[i].CreateIndex?
  {
    if |script| > 0 {
      UndoCreatesNothing(script[..|script| - 1]);
    }
  }

  lemma RestCreatesNoSuchIndex()
    ensures var rest := CreateOps(DummyProductsTable()) + UndoAll(WarehouseScript());
            forall i :: 0 <= i < |rest| ==> !(rest[i].CreateIndex? && rest[i].index == WAREHOUSE_INDEX)
  {
    hide WarehouseScript, UndoAll, DummyProductsTable;
    UndoCreatesNothing(WarehouseScript());
    DummyIndexes();
  }

  /** The whole chain: both upgrades run, the warehouse downgrade runs, and the stock-engine downgrade
      is stuck. */
  lemma ChainStuckAfterBothUpgrades(s: Schema)
    requires Sound(s) && Exec(s, StockUpgrade() + WarehouseUpgrade()).Ok?
    ensures var top := Exec(s, StockUpgrade() + WarehouseUpgrade()).schema;
            && Exec(top, WarehouseDowngrade()).Ok?
            && Exec(top, WarehouseDowngrade() + StockDowngrade()).Refused?
  {
    hide *;
    ExecConcat(s, StockUpgrade(), WarehouseUpgrade());
    var mid := Exec(s, StockUpgrade()).schema;
    ExecSound(s, StockUpgrade());
    WarehouseRoundTrip(mid);
    var top := Exec(mid, WarehouseUpgrade()).schema;
    ChainCannotBeTakenBack(top);
    ExecConcat(top, WarehouseDowngrade(), StockDowngrade());
  }
}
